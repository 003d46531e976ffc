/**
 * Input canonicaliser (server/finops-core.js:94-242): turns an untrusted
 * argument object into typed, range-checked inputs. It is total: a bad value
 * becomes absent (`None`) or a documented default, never an error.
 */
module Canonicalizer {
  import opened Wrappers
  import opened JsValues

  // ---------------------------------------------------------------------------
  // Numbers, toggles, currency codes
  // ---------------------------------------------------------------------------

  /** The `{ min, max, integer }` configuration that `normalizeNumber` takes. */
  datatype NumberRule = NumberRule(min: Option<real>, max: Option<real>, integer: bool)

  predicate InRange(x: real, rule: NumberRule) {
    (rule.min.None? || rule.min.value <= x) && (rule.max.None? || x <= rule.max.value)
  }

  /** The values `normalizeNumber` may return under `rule`. */
  predicate Admits(rule: NumberRule, v: Option<real>) {
    v.None? || (InRange(v.value, rule) && (rule.integer ==> IsInteger(v.value)))
  }

  /** The value `normalizeNumber` range-checks: `Math.round(n)` under an integer rule, else n. */
  function Rounded(n: real, integer: bool): (y: real)
    ensures integer ==> IsInteger(y) && -0.5 < y - n <= 0.5
    ensures !integer || IsInteger(n) ==> y == n
  {
    if integer then
      var k := Round(n);
      assert IsInteger(n) ==> k == n.Floor by {
        if IsInteger(n) {
          RoundOfInteger(n.Floor);
        }
      }
      k as real
    else n
  }

  lemma RoundOfInteger(k: int)
    ensures Round(k as real) == k
  {
    var r := Round(k as real);
    assert (k as real) - 0.5 < r as real <= (k as real) + 0.5;
  }

  /**
   * `normalizeNumber`: coerce, round when the rule asks for integers, and
   * reject (rather than clamp) anything outside [min, max].
   */
  function NormalizeNumber(v: Raw, rule: NumberRule, parse: NumberParser): (r: Option<real>)
    ensures Admits(rule, r)
    ensures r.Some? ==> ToNumber(v, parse).Some? && r.value == Rounded(ToNumber(v, parse).value, rule.integer)
    // a value that is already admissible passes through unchanged
    ensures ToNumber(v, parse).Some? && Admits(rule, ToNumber(v, parse)) ==> r == ToNumber(v, parse)
    // rejection happens only for absent numbers or a (rounded) value out of range
    ensures r.None? && ToNumber(v, parse).Some? ==> !InRange(Rounded(ToNumber(v, parse).value, rule.integer), rule)
  {
    var n := ToNumber(v, parse);
    if n.None? then None
    else
      var normalized := Rounded(n.value, rule.integer);
      if rule.min.Some? && normalized < rule.min.value then None
      else if rule.max.Some? && normalized > rule.max.value then None
      else Some(normalized)
  }

  /** Normalising a normalised number again changes nothing. */
  lemma NormalizeNumberIdempotent(v: Raw, rule: NumberRule, parse: NumberParser)
    ensures var r := NormalizeNumber(v, rule, parse);
            r.Some? ==> NormalizeNumber(Num(r.value), rule, parse) == r
  {
  }

  const ToggleOnWords: seq<string> := ["on", "true", "1"]

  /** `normalizeToggle`: booleans as they are, the number 1, or one of three spellings. */
  function NormalizeToggle(v: Raw): (r: bool)
    ensures v.Bool? ==> r == v.b
    ensures v.Num? || v.NonFinite? ==> r == (v == Num(1.0))
    ensures v.Str? ==> (r <==> LowerAscii(Trim(v.s)) in ToggleOnWords)
    ensures r ==> v.Bool? || v.Num? || v.Str?
  {
    match v
    case Bool(b) => b
    case Num(x) => x == 1.0
    case NonFinite(_) => false
    case Str(s) => LowerAscii(Trim(s)) in ToggleOnWords
    case _ => false
  }

  const CurrencyCodes: seq<string> := ["EUR", "GBP", "USD"]
  const DefaultCurrencyCode: string := "EUR"

  /**
   * `String(v)` for the values whose text can spell a currency code: a string
   * is itself, and a one-element array prints its element (join writes no
   * comma; a null or undefined element prints as empty). Every other value
   * prints with a comma, or as "true", "false", "null", "[object Object]" or
   * a number, and none of those trims and upper-cases to a code.
   */
  function CodeText(v: Raw): (t: Option<string>)
    ensures v.Str? ==> t == Some(v.s)
    ensures t.Some? ==> v.Str? || (v.Arr? && |v.items| == 1)
  {
    match v
    case Str(s) => Some(s)
    case Arr(items) =>
      if |items| != 1 then None
      else if items[0].Null? || items[0].Undefined? then Some("")
      else CodeText(items[0])
    case _ => None
  }

  /**
   * `normalizeCurrencyCode`: the trimmed, upper-cased text of the value when
   * it is one of EUR, GBP, USD; null, undefined and "" give none.
   */
  function NormalizeCurrencyCode(v: Raw): (r: Option<string>)
    ensures r.Some? ==> r.value in CurrencyCodes
    ensures r.Some? <==> CodeText(v).Some? && UpperAscii(Trim(CodeText(v).value)) in CurrencyCodes
    ensures r.Some? ==> r.value == UpperAscii(Trim(CodeText(v).value))
    ensures v.Str? ==> (r.Some? <==> UpperAscii(Trim(v.s)) in CurrencyCodes)
  {
    if v.Null? || v.Undefined? || v == Str("") then None
    else
      match CodeText(v)
      case None => None
      case Some(text) =>
        var normalized := UpperAscii(Trim(text));
        if normalized in CurrencyCodes then Some(normalized) else None
  }

  /** A one-element array prints as its element, so it normalises as that string does. */
  lemma ArrayCurrencyCode(s: string)
    ensures NormalizeCurrencyCode(Arr([Str(s)])) == NormalizeCurrencyCode(Str(s))
  {
    assert CodeText(Arr([Str(s)])) == Some(s);
  }

  /** Lower-case codes are accepted: "usd" normalises to USD. */
  lemma LowerCaseCurrencyCode()
    ensures NormalizeCurrencyCode(Str("usd")).Some?
    ensures NormalizeCurrencyCode(Str("usd")).value == "USD"
  {
    assert !IsJsWhitespace('u') && !IsJsWhitespace('d');
    assert TrimStart("usd") == "usd";
    assert TrimEnd("usd") == "usd";
    var u := UpperAscii("usd");
    assert u[0] == 'U' && u[1] == 'S' && u[2] == 'D';
    assert u == "USD";
    assert "USD" in CurrencyCodes;
  }

  // ---------------------------------------------------------------------------
  // Vocabulary lists: tech domains, providers, hidden curves
  // ---------------------------------------------------------------------------

  const TechDomainKeys: seq<string> := ["cloud", "saas", "licensing", "private-cloud", "data-center", "labor"]
  const DefaultTechDomains: seq<string> := ["cloud"]
  const ProviderKeys: seq<string> := ["aws", "azure", "gcp", "oci", "ibm", "alibaba", "huawei", "multi"]
  const CurveKeys: seq<string> :=
    ["dev", "infra-raw", "infra-cud", "total", "total-rel", "revenue", "profit", "profit-rel", "price-min"]

  predicate Distinct<T(==)>(s: seq<T>) {
    forall i, j :: 0 <= i < j < |s| ==> s[i] != s[j]
  }

  /** A list drawn from `vocab` without repetitions. */
  predicate IsVocabularyList(s: seq<string>, vocab: seq<string>) {
    Distinct(s) && forall x :: x in s ==> x in vocab
  }

  /** A tech-domain scope as `normalizeTechDomains` returns it. */
  predicate IsDomainScope(s: seq<string>) {
    |s| > 0 && IsVocabularyList(s, TechDomainKeys)
  }

  /**
   * What the three list normalisers keep of an array: its string entries that
   * belong to `vocab`, each at its first occurrence, in input order.
   */
  function KeepVocabulary(items: seq<Raw>, vocab: seq<string>): seq<string>
  {
    if |items| == 0 then []
    else
      var kept := KeepVocabulary(items[..|items| - 1], vocab);
      var last := items[|items| - 1];
      if last.Str? && last.s in vocab && last.s !in kept then kept + [last.s] else kept
  }

  /** The kept list holds exactly the vocabulary strings that occur in the input. */
  lemma {:induction false} KeepVocabularyMembers(items: seq<Raw>, vocab: seq<string>)
    ensures forall x :: x in KeepVocabulary(items, vocab) <==> x in vocab && Str(x) in items
  {
    if |items| > 0 {
      var prefix := items[..|items| - 1];
      KeepVocabularyMembers(prefix, vocab);
      assert items == prefix + [items[|items| - 1]];
    }
  }

  /** The kept list has no repetitions. */
  lemma {:induction false} KeepVocabularyDistinct(items: seq<Raw>, vocab: seq<string>)
    ensures IsVocabularyList(KeepVocabulary(items, vocab), vocab)
  {
    KeepVocabularyMembers(items, vocab);
    if |items| > 0 {
      KeepVocabularyDistinct(items[..|items| - 1], vocab);
    }
  }

  /** The position of the first occurrence of `v`. */
  function FirstIndex(items: seq<Raw>, v: Raw): (k: nat)
    requires v in items
    ensures k < |items| && items[k] == v && v !in items[..k]
  {
    if items[0] == v then 0
    else
      var k := FirstIndex(items[1..], v);
      assert items[..k + 1] == [items[0]] + items[1..][..k];
      k + 1
  }

  lemma FirstIndexAppend(items: seq<Raw>, x: Raw, v: Raw)
    requires v in items
    ensures FirstIndex(items + [x], v) == FirstIndex(items, v)
  {
    var k1, k2 := FirstIndex(items + [x], v), FirstIndex(items, v);
    assert (items + [x])[..k2] == items[..k2];
    assert (items + [x])[k2] == v;
  }

  /** Every kept string occurs in the items, and the kept strings appear in the order they first occur there. */
  predicate InFirstOccurrenceOrder(r: seq<string>, items: seq<Raw>) {
    (forall x :: x in r ==> Str(x) in items) &&
    forall i, j :: 0 <= i < j < |r| ==> FirstIndex(items, Str(r[i])) < FirstIndex(items, Str(r[j]))
  }

  /** The kept list is in order of first occurrence in the input. */
  lemma {:induction false} KeepVocabularyOrder(items: seq<Raw>, vocab: seq<string>)
    ensures InFirstOccurrenceOrder(KeepVocabulary(items, vocab), items)
  {
    if |items| > 0 {
      var prefix, last := items[..|items| - 1], items[|items| - 1];
      assert items == prefix + [last];
      KeepVocabularyOrder(prefix, vocab);
      KeepVocabularyMembers(prefix, vocab);
      var kept := KeepVocabulary(prefix, vocab);
      if last.Str? && last.s in vocab && last.s !in kept {
        assert Str(last.s) !in prefix;
        OrderAfterNewString(prefix, kept, last.s);
      } else {
        OrderAfterOldItem(prefix, kept, last);
      }
    }
  }

  /** Appending an item the kept list ignores keeps it in first-occurrence order. */
  lemma OrderAfterOldItem(prefix: seq<Raw>, kept: seq<string>, last: Raw)
    requires InFirstOccurrenceOrder(kept, prefix)
    ensures InFirstOccurrenceOrder(kept, prefix + [last])
  {
    var items := prefix + [last];
    forall x | x in kept
      ensures Str(x) in items && FirstIndex(items, Str(x)) == FirstIndex(prefix, Str(x))
    {
      FirstIndexAppend(prefix, last, Str(x));
    }
    forall i, j | 0 <= i < j < |kept|
      ensures FirstIndex(items, Str(kept[i])) < FirstIndex(items, Str(kept[j]))
    {
      assert kept[i] in kept && kept[j] in kept;
    }
  }

  /** Appending a string new to the items extends the kept list in first-occurrence order. */
  lemma OrderAfterNewString(prefix: seq<Raw>, kept: seq<string>, s: string)
    requires InFirstOccurrenceOrder(kept, prefix)
    requires Str(s) !in prefix
    ensures InFirstOccurrenceOrder(kept + [s], prefix + [Str(s)])
  {
    var items := prefix + [Str(s)];
    forall x | x in kept
      ensures Str(x) in items && FirstIndex(items, Str(x)) == FirstIndex(prefix, Str(x)) < |prefix|
    {
      FirstIndexAppend(prefix, Str(s), Str(x));
    }
    assert items[..|prefix|] == prefix;
    assert FirstIndex(items, Str(s)) == |prefix|;
    var r := kept + [s];
    forall i, j | 0 <= i < j < |r|
      ensures FirstIndex(items, Str(r[i])) < FirstIndex(items, Str(r[j]))
    {
      assert r[i] == kept[i] && kept[i] in kept;
      if j < |kept| {
        assert r[j] == kept[j] && kept[j] in kept;
      }
    }
  }

  /** Items made of strings only. */
  function AsStrings(s: seq<string>): (r: seq<Raw>)
    ensures |r| == |s| && forall i :: 0 <= i < |s| ==> r[i] == Str(s[i])
  {
    seq(|s|, i requires 0 <= i < |s| => Str(s[i]))
  }

  /** A list that is already clean passes through unchanged. */
  lemma {:induction false} KeepVocabularyIdempotent(s: seq<string>, vocab: seq<string>)
    requires IsVocabularyList(s, vocab)
    ensures KeepVocabulary(AsStrings(s), vocab) == s
  {
    if |s| > 0 {
      var prefix := s[..|s| - 1];
      assert AsStrings(s)[..|s| - 1] == AsStrings(prefix);
      KeepVocabularyIdempotent(prefix, vocab);
      assert s == prefix + [s[|s| - 1]];
    }
  }

  /**
   * The loop the three list normalisers share: walk the entries, skip
   * non-strings, non-members and already seen values, push the rest.
   */
  method FilterVocabulary(items: seq<Raw>, vocab: seq<string>) returns (out: seq<string>)
    ensures out == KeepVocabulary(items, vocab)
  {
    var seen: set<string> := {};
    out := [];
    for i := 0 to |items|
      invariant out == KeepVocabulary(items[..i], vocab)
      invariant forall x :: x in seen <==> x in out
    {
      assert items[..i + 1][..i] == items[..i];
      var entry := items[i];
      if !entry.Str? {
        continue;
      }
      if entry.s !in vocab {
        continue;
      }
      if entry.s in seen {
        continue;
      }
      seen := seen + {entry.s};
      out := out + [entry.s];
    }
    assert items[..|items|] == items;
  }

  /** `normalizeTechDomains`: never empty, falls back to ["cloud"]. */
  method NormalizeTechDomains(value: Raw) returns (r: seq<string>)
    ensures !value.Arr? ==> r == DefaultTechDomains
    ensures value.Arr? ==>
      r == (if |KeepVocabulary(value.items, TechDomainKeys)| > 0 then KeepVocabulary(value.items, TechDomainKeys)
            else DefaultTechDomains)
    ensures IsDomainScope(r)
  {
    if !value.Arr? {
      return DefaultTechDomains;
    }
    var deduped := FilterVocabulary(value.items, TechDomainKeys);
    KeepVocabularyDistinct(value.items, TechDomainKeys);
    r := if |deduped| > 0 then deduped else DefaultTechDomains;
  }

  /** `normalizeProviders`: possibly empty, no default. */
  method NormalizeProviders(value: Raw) returns (r: seq<string>)
    ensures r == (if value.Arr? then KeepVocabulary(value.items, ProviderKeys) else [])
    ensures IsVocabularyList(r, ProviderKeys)
  {
    if !value.Arr? {
      return [];
    }
    r := FilterVocabulary(value.items, ProviderKeys);
    KeepVocabularyDistinct(value.items, ProviderKeys);
  }

  /** `normalizeHiddenCurves`: possibly empty, no default. */
  method NormalizeHiddenCurves(value: Raw) returns (r: seq<string>)
    ensures r == (if value.Arr? then KeepVocabulary(value.items, CurveKeys) else [])
    ensures IsVocabularyList(r, CurveKeys)
  {
    if !value.Arr? {
      return [];
    }
    r := FilterVocabulary(value.items, CurveKeys);
    KeepVocabularyDistinct(value.items, CurveKeys);
  }

  // ---------------------------------------------------------------------------
  // UI context and tool options
  // ---------------------------------------------------------------------------

  const UiModeOptions: seq<string> := ["quick", "operator", "architect"]
  const UiIntentOptions: seq<string> := ["viability", "operations", "architecture", "executive"]
  const UiModeDefault: string := "quick"
  const UiIntentDefault: string := "viability"

  /** `normalizeUiMode` and `normalizeUiIntent`: an exact option, else the default. */
  function PickOption(v: Raw, options: seq<string>, default: string): (r: string)
    requires default in options
    ensures r in options
    ensures v.Str? && v.s in options ==> r == v.s
    ensures !(v.Str? && v.s in options) ==> r == default
  {
    if v.Str? && v.s in options then v.s else default
  }

  datatype Options = Options(
    includeHealth: bool,
    includeRecommendations: bool,
    includeSeries: bool,
    includeStateToken: bool)

  /** A boolean option: a boolean value wins, anything else gives the default. */
  function BoolOption(v: Raw, default: bool): (r: bool)
    ensures v.Bool? ==> r == v.b
    ensures !v.Bool? ==> r == default
  {
    if v.Bool? then v.b else default
  }

  /** `normalizeOptions`: health, recommendations and the state token default on, the series off. */
  function NormalizeOptions(options: Raw): (r: Options)
    ensures r.includeHealth == (if Get(options, "includeHealth").Bool? then Get(options, "includeHealth").b else true)
    ensures r.includeRecommendations ==
      (if Get(options, "includeRecommendations").Bool? then Get(options, "includeRecommendations").b else true)
    ensures r.includeSeries == (if Get(options, "includeSeries").Bool? then Get(options, "includeSeries").b else false)
    ensures r.includeStateToken ==
      (if Get(options, "includeStateToken").Bool? then Get(options, "includeStateToken").b else true)
  {
    Options(
      BoolOption(Get(options, "includeHealth"), true),
      BoolOption(Get(options, "includeRecommendations"), true),
      BoolOption(Get(options, "includeSeries"), false),
      BoolOption(Get(options, "includeStateToken"), true))
  }

  // ---------------------------------------------------------------------------
  // The canonical input record
  // ---------------------------------------------------------------------------

  const NRefRule := NumberRule(Some(1.0), Some(100000.0), true)
  const NonNegative := NumberRule(Some(0.0), None, false)
  const TargetClientsRule := NumberRule(Some(1.0), None, true)
  const CudRule := NumberRule(Some(0.0), Some(95.0), false)
  const MarginRule := NumberRule(Some(0.0), Some(200.0), false)
  const NMaxRule := NumberRule(Some(10.0), Some(100000.0), true)
  const PercentRule := NumberRule(Some(0.0), Some(100.0), false)
  const CountRule := NumberRule(Some(0.0), None, true)
  const MinutesRule := NumberRule(Some(1.0), None, true)

  datatype CanonicalInput = CanonicalInput(
    nRef: Option<real>,
    currency: Option<string>,
    devPerClient: Option<real>,
    infraTotal: Option<real>,
    ARPU: Option<real>,
    startupTargetPrice: Option<real>,
    startupTargetClients: Option<real>,
    cudPct: Option<real>,
    margin: Option<real>,
    nMax: Option<real>,
    techDomains: seq<string>,
    costSaaS: Option<real>,
    costLicensing: Option<real>,
    costPrivateCloud: Option<real>,
    costDataCenter: Option<real>,
    costLabor: Option<real>,
    reliabilityEnabled: bool,
    sloTargetAvailabilityPct: Option<real>,
    sliObservedAvailabilityPct: Option<real>,
    incidentCountMonthly: Option<real>,
    mttrHours: Option<real>,
    incidentBlendedHourlyRate: Option<real>,
    criticalRevenuePerMinute: Option<real>,
    arrExposedMonthly: Option<real>,
    slaPenaltyRatePerBreachPointMonthly: Option<real>,
    reliabilityInvestmentMonthly: Option<real>,
    minutesInMonth: Option<real>,
    incidentFteCount: Option<real>,
    criticalTrafficSharePct: Option<real>,
    churnSensitivityPct: Option<real>,
    breachProbabilityPct: Option<real>,
    slaPenaltyMonthly: Option<real>)

  /** Every field within its declared range, as `normalizeInputs` guarantees. */
  predicate Canonical(ci: CanonicalInput) {
    && Admits(NRefRule, ci.nRef)
    && (ci.currency.Some? ==> ci.currency.value in CurrencyCodes)
    && Admits(NonNegative, ci.devPerClient)
    && Admits(NonNegative, ci.infraTotal)
    && Admits(NonNegative, ci.ARPU)
    && Admits(NonNegative, ci.startupTargetPrice)
    && Admits(TargetClientsRule, ci.startupTargetClients)
    && Admits(CudRule, ci.cudPct)
    && Admits(MarginRule, ci.margin)
    && Admits(NMaxRule, ci.nMax)
    && IsDomainScope(ci.techDomains)
    && Admits(NonNegative, ci.costSaaS)
    && Admits(NonNegative, ci.costLicensing)
    && Admits(NonNegative, ci.costPrivateCloud)
    && Admits(NonNegative, ci.costDataCenter)
    && Admits(NonNegative, ci.costLabor)
    && Admits(PercentRule, ci.sloTargetAvailabilityPct)
    && Admits(PercentRule, ci.sliObservedAvailabilityPct)
    && Admits(CountRule, ci.incidentCountMonthly)
    && Admits(NonNegative, ci.mttrHours)
    && Admits(NonNegative, ci.incidentBlendedHourlyRate)
    && Admits(NonNegative, ci.criticalRevenuePerMinute)
    && Admits(NonNegative, ci.arrExposedMonthly)
    && Admits(NonNegative, ci.slaPenaltyRatePerBreachPointMonthly)
    && Admits(NonNegative, ci.reliabilityInvestmentMonthly)
    && Admits(MinutesRule, ci.minutesInMonth)
    && Admits(NonNegative, ci.incidentFteCount)
    && Admits(PercentRule, ci.criticalTrafficSharePct)
    && Admits(PercentRule, ci.churnSensitivityPct)
    && Admits(PercentRule, ci.breachProbabilityPct)
    && Admits(NonNegative, ci.slaPenaltyMonthly)
  }

  /** The normalised inputs hold each field of the raw inputs under its own rule. */
  predicate NormalizedFrom(ci: CanonicalInput, inputs: Raw, parse: NumberParser) {
    && (ci.nRef == NormalizeNumber(Get(inputs, "nRef"), NRefRule, parse))
    && (ci.currency == NormalizeCurrencyCode(Get(inputs, "currency")))
    && (ci.devPerClient == NormalizeNumber(Get(inputs, "devPerClient"), NonNegative, parse))
    && (ci.infraTotal == NormalizeNumber(Get(inputs, "infraTotal"), NonNegative, parse))
    && (ci.ARPU == NormalizeNumber(Get(inputs, "ARPU"), NonNegative, parse))
    && (ci.startupTargetPrice == NormalizeNumber(Get(inputs, "startupTargetPrice"), NonNegative, parse))
    && (ci.startupTargetClients == NormalizeNumber(Get(inputs, "startupTargetClients"), TargetClientsRule, parse))
    && (ci.cudPct == NormalizeNumber(Get(inputs, "cudPct"), CudRule, parse))
    && (ci.margin == NormalizeNumber(Get(inputs, "margin"), MarginRule, parse))
    && (ci.nMax == NormalizeNumber(Get(inputs, "nMax"), NMaxRule, parse))
    && ci.techDomains ==
         (if Get(inputs, "techDomains").Arr? && |KeepVocabulary(Get(inputs, "techDomains").items, TechDomainKeys)| > 0
          then KeepVocabulary(Get(inputs, "techDomains").items, TechDomainKeys) else DefaultTechDomains)
    && (ci.costSaaS == NormalizeNumber(Get(inputs, "costSaaS"), NonNegative, parse))
    && (ci.costLicensing == NormalizeNumber(Get(inputs, "costLicensing"), NonNegative, parse))
    && (ci.costPrivateCloud == NormalizeNumber(Get(inputs, "costPrivateCloud"), NonNegative, parse))
    && (ci.costDataCenter == NormalizeNumber(Get(inputs, "costDataCenter"), NonNegative, parse))
    && (ci.costLabor == NormalizeNumber(Get(inputs, "costLabor"), NonNegative, parse))
    && (ci.reliabilityEnabled == NormalizeToggle(Get(inputs, "reliabilityEnabled")))
    && (ci.sloTargetAvailabilityPct == NormalizeNumber(Get(inputs, "sloTargetAvailabilityPct"), PercentRule, parse))
    && (ci.sliObservedAvailabilityPct == NormalizeNumber(Get(inputs, "sliObservedAvailabilityPct"), PercentRule, parse))
    && (ci.incidentCountMonthly == NormalizeNumber(Get(inputs, "incidentCountMonthly"), CountRule, parse))
    && (ci.mttrHours == NormalizeNumber(Get(inputs, "mttrHours"), NonNegative, parse))
    && (ci.incidentBlendedHourlyRate == NormalizeNumber(Get(inputs, "incidentBlendedHourlyRate"), NonNegative, parse))
    && (ci.criticalRevenuePerMinute == NormalizeNumber(Get(inputs, "criticalRevenuePerMinute"), NonNegative, parse))
    && (ci.arrExposedMonthly == NormalizeNumber(Get(inputs, "arrExposedMonthly"), NonNegative, parse))
    && (ci.slaPenaltyRatePerBreachPointMonthly ==
         NormalizeNumber(Get(inputs, "slaPenaltyRatePerBreachPointMonthly"), NonNegative, parse))
    && (ci.reliabilityInvestmentMonthly == NormalizeNumber(Get(inputs, "reliabilityInvestmentMonthly"), NonNegative, parse))
    && (ci.minutesInMonth == NormalizeNumber(Get(inputs, "minutesInMonth"), MinutesRule, parse))
    && (ci.incidentFteCount == NormalizeNumber(Get(inputs, "incidentFteCount"), NonNegative, parse))
    && (ci.criticalTrafficSharePct == NormalizeNumber(Get(inputs, "criticalTrafficSharePct"), PercentRule, parse))
    && (ci.churnSensitivityPct == NormalizeNumber(Get(inputs, "churnSensitivityPct"), PercentRule, parse))
    && (ci.breachProbabilityPct == NormalizeNumber(Get(inputs, "breachProbabilityPct"), PercentRule, parse))
    && (ci.slaPenaltyMonthly == NormalizeNumber(Get(inputs, "slaPenaltyMonthly"), NonNegative, parse))
  }

  /** `normalizeInputs`: one rule per field; the result is always canonical. */
  method NormalizeInputs(inputs: Raw, parse: NumberParser) returns (ci: CanonicalInput)
    ensures Canonical(ci)
    ensures NormalizedFrom(ci, inputs, parse)
  {
    var techDomains := NormalizeTechDomains(Get(inputs, "techDomains"));
    ci := CanonicalInput(
      nRef := NormalizeNumber(Get(inputs, "nRef"), NRefRule, parse),
      currency := NormalizeCurrencyCode(Get(inputs, "currency")),
      devPerClient := NormalizeNumber(Get(inputs, "devPerClient"), NonNegative, parse),
      infraTotal := NormalizeNumber(Get(inputs, "infraTotal"), NonNegative, parse),
      ARPU := NormalizeNumber(Get(inputs, "ARPU"), NonNegative, parse),
      startupTargetPrice := NormalizeNumber(Get(inputs, "startupTargetPrice"), NonNegative, parse),
      startupTargetClients := NormalizeNumber(Get(inputs, "startupTargetClients"), TargetClientsRule, parse),
      cudPct := NormalizeNumber(Get(inputs, "cudPct"), CudRule, parse),
      margin := NormalizeNumber(Get(inputs, "margin"), MarginRule, parse),
      nMax := NormalizeNumber(Get(inputs, "nMax"), NMaxRule, parse),
      techDomains := techDomains,
      costSaaS := NormalizeNumber(Get(inputs, "costSaaS"), NonNegative, parse),
      costLicensing := NormalizeNumber(Get(inputs, "costLicensing"), NonNegative, parse),
      costPrivateCloud := NormalizeNumber(Get(inputs, "costPrivateCloud"), NonNegative, parse),
      costDataCenter := NormalizeNumber(Get(inputs, "costDataCenter"), NonNegative, parse),
      costLabor := NormalizeNumber(Get(inputs, "costLabor"), NonNegative, parse),
      reliabilityEnabled := NormalizeToggle(Get(inputs, "reliabilityEnabled")),
      sloTargetAvailabilityPct := NormalizeNumber(Get(inputs, "sloTargetAvailabilityPct"), PercentRule, parse),
      sliObservedAvailabilityPct := NormalizeNumber(Get(inputs, "sliObservedAvailabilityPct"), PercentRule, parse),
      incidentCountMonthly := NormalizeNumber(Get(inputs, "incidentCountMonthly"), CountRule, parse),
      mttrHours := NormalizeNumber(Get(inputs, "mttrHours"), NonNegative, parse),
      incidentBlendedHourlyRate := NormalizeNumber(Get(inputs, "incidentBlendedHourlyRate"), NonNegative, parse),
      criticalRevenuePerMinute := NormalizeNumber(Get(inputs, "criticalRevenuePerMinute"), NonNegative, parse),
      arrExposedMonthly := NormalizeNumber(Get(inputs, "arrExposedMonthly"), NonNegative, parse),
      slaPenaltyRatePerBreachPointMonthly :=
        NormalizeNumber(Get(inputs, "slaPenaltyRatePerBreachPointMonthly"), NonNegative, parse),
      reliabilityInvestmentMonthly := NormalizeNumber(Get(inputs, "reliabilityInvestmentMonthly"), NonNegative, parse),
      minutesInMonth := NormalizeNumber(Get(inputs, "minutesInMonth"), MinutesRule, parse),
      incidentFteCount := NormalizeNumber(Get(inputs, "incidentFteCount"), NonNegative, parse),
      criticalTrafficSharePct := NormalizeNumber(Get(inputs, "criticalTrafficSharePct"), PercentRule, parse),
      churnSensitivityPct := NormalizeNumber(Get(inputs, "churnSensitivityPct"), PercentRule, parse),
      breachProbabilityPct := NormalizeNumber(Get(inputs, "breachProbabilityPct"), PercentRule, parse),
      slaPenaltyMonthly := NormalizeNumber(Get(inputs, "slaPenaltyMonthly"), NonNegative, parse));
  }
}
