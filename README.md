# FinOps calculator core in Dafny

This project models the calculation core of the FinOps calculator MCP server,
`server/finops-core.js`. It covers:

- **Input canonicalisation.** Numbers are parsed, rounded and range-checked.
  Currency codes, toggles, vocabulary lists and tool options are normalised.
- **The cost model.** `deriveModel` calibrates a power-law cost model
  (`dev = K·n^-a`, `infra = c·n^b`, `cud = g·c·n^(0.96b)`) at a reference
  client count and resolves the ARPU mode: manual, startup-price,
  startup-clients or missing.
- **The client-count scanners.** These find the break-even count, the count
  with the lowest unit cost, and the least count whose minimum price meets a
  target, with or without a reliability load.
- **The technology-domain snapshot.** Costs are normalised per client over the
  domains in scope, with coverage, confidence, warnings and advisories.
- **The reliability calculator.** It computes downtime, SLA penalty, incident
  labour, revenue at risk and churn risk, then the failure cost, the adjusted
  cost, the risk band and the data confidence.
- **`computeOutputs`.** The unit economics at the reference count, the planning
  targets, the break-even precedence by ARPU mode, and the reliability-adjusted
  figures.
- **The health score.** Check deductions, the score band and the zone.
- **Recommendations.** Strategic items, inference of each item's category,
  filtering by zone, provider and category, and a stable sort by priority.
- **The share-state token.** The serialised input state, the normalised
  payload, and the URL-safe, unpadded Base64 of RFC 4648 (sections 4 and 5)
  with the decoder that reverses it.
- **The three computing tools** and the two state tools.

Where the code loops, the model is a Dafny method whose loop carries
invariants and whose `ensures` ties the result to a specification function or
predicate:

- the scanners;
- the vocabulary filters;
- `buildSerializedInputState`.

Where the code builds its result step by step without a loop, the model is
also a method, with the result stated in its `ensures`:

- `deriveModel`;
- the health checks;
- `computeOutputs`;
- the tools.

Pure computations are functions, and their properties are proved as lemmas:

- `Base64.TokenRoundTrip` proves that decoding a token gives back the bytes.
- `ShareState.ShareStateRoundTrip` proves that decoding a share state gives
  back its JSON view, given a JSON codec that round-trips.
- `Recommendations.RankedIsStableSort` proves the ranking is a stable sort: a
  permutation, equal to the high, then medium, then low buckets.
- `Scanner.LoadNeverHelps` proves that a reliability load never lowers the
  required client count.
- `Engine.ScannedBreakEvenWithin` proves the break-even count is reported
  exactly when one lies within nMax.

The model does not compute with these; each is passed in as a parameter:

- JavaScript's `Number(string)`, as `NumberParser`.
- `Math.pow`, as `Pow`. Only its positivity is assumed, as a precondition.
- `String(number)`, as `NumberFormatter`.
- `JSON.stringify` followed by UTF-8 encoding, as `Serialize`.
- UTF-8 decoding followed by `JSON.parse`, as `Parse`.

JavaScript values are the datatype `JsValues.Raw`. Reals are exact.

## Model

| member | source | states |
|---|---|---|
| `JsValues.Get` | server/finops-core.js:155-157 | reading a property of a non-object, or a missing key, gives `undefined` |
| `JsValues.ToNumber` | server/finops-core.js:98-102 | null, undefined, the empty string and non-finite numbers give no number; a finite number is itself |
| `JsValues.Round` | server/finops-core.js:108 | `Math.round` lands within half a unit of its argument, halves rounding up |
| `JsValues.TrimStart` | server/finops-core.js:118 | trimming removes a prefix and leaves no leading whitespace |
| `JsValues.TrimEnd` | server/finops-core.js:118 | trimming removes a suffix and leaves no trailing whitespace |
| `JsValues.LowerAscii` | server/finops-core.js:118 | lower-casing keeps the length and maps exactly the letters A-Z |
| `JsValues.UpperAscii` | server/finops-core.js:124 | upper-casing keeps the length, maps each of a-z to its capital and the long s to S, and leaves every other character as it is |
| `JsValues.IndexKey` | server/finops-core.js:977 | an array index as `Object.entries` names it: a non-empty string of decimal digits, one digit exactly below 10 |
| `JsValues.IndexKeyInjective` | server/finops-core.js:977 | distinct indices have distinct keys |
| `JsValues.IndexEntriesKeys` | server/finops-core.js:977 | the entries of an array hold only index keys |
| `JsValues.IndexEntriesValues` | server/finops-core.js:977 | every array item sits under its own index key |
| `JsValues.Entries` | server/finops-core.js:975-977 | `Object.entries`: an object's own fields; an array's items under their index keys and no other key; nothing for any other value |
| `Canonicalizer.Rounded` | server/finops-core.js:108 | integer fields are rounded to an integer within half a unit; other values pass unchanged |
| `Canonicalizer.NormalizeNumber` | server/finops-core.js:104-112 | the result respects the field's min/max/integer rule, is the rounded parsed number, passes an admissible value unchanged, and rejects only missing or out-of-range values |
| `Canonicalizer.NormalizeNumberIdempotent` | server/finops-core.js:104-112 | normalising an already normalised number gives it back |
| `Canonicalizer.RoundOfInteger` | server/finops-core.js:108 | rounding an integer is the identity |
| `Canonicalizer.NormalizeToggle` | server/finops-core.js:114-120 | booleans pass, numbers are on only for 1, strings are on only for trimmed case-insensitive "on"/"true"/"1", anything else is off |
| `Canonicalizer.CodeText` | server/finops-core.js:124 | the text of a string is the string; only a string or a one-element array can print as a currency code |
| `Canonicalizer.NormalizeCurrencyCode` | server/finops-core.js:122-126 | a code exactly when the trimmed, upper-cased `String(value)` is EUR, GBP or USD, and then that code; null, undefined and "" give none |
| `Canonicalizer.ArrayCurrencyCode` | server/finops-core.js:124 | a one-element array of a string normalises exactly as the string does |
| `Canonicalizer.LowerCaseCurrencyCode` | server/finops-core.js:124 | lower-case codes are accepted: "usd" normalises to USD |
| `Canonicalizer.KeepVocabularyMembers` | server/finops-core.js:192-204 | a value is kept exactly when it is in the vocabulary and occurs as a string in the input |
| `Canonicalizer.KeepVocabularyDistinct` | server/finops-core.js:143-150 | the kept list has no duplicates and only vocabulary words |
| `Canonicalizer.KeepVocabularyOrder` | server/finops-core.js:196-202 | kept values appear in the order of their first occurrence |
| `Canonicalizer.KeepVocabularyIdempotent` | server/finops-core.js:214-226 | filtering an already filtered list gives it back |
| `Canonicalizer.FilterVocabulary` | server/finops-core.js:143-151 | the deduplicating loop computes the vocabulary filter |
| `Canonicalizer.NormalizeTechDomains` | server/finops-core.js:141-153 | a non-array or an array with no valid key gives the default scope ["cloud"]; otherwise the filtered keys, always a non-empty distinct domain scope |
| `Canonicalizer.NormalizeProviders` | server/finops-core.js:192-204 | a non-array gives []; otherwise the distinct known providers in first-seen order |
| `Canonicalizer.NormalizeHiddenCurves` | server/finops-core.js:214-226 | a non-array gives []; otherwise the distinct known curve keys in first-seen order |
| `Canonicalizer.PickOption` | server/finops-core.js:206-212 | a string in the option list is kept, anything else gives the default, and the result is always an option |
| `Canonicalizer.BoolOption` | server/finops-core.js:237-240 | a boolean is kept, anything else gives the default |
| `Canonicalizer.NormalizeOptions` | server/finops-core.js:228-242 | each flag is the boolean given, else its default (health, recommendations and token on; series off) |
| `Canonicalizer.NormalizeInputs` | server/finops-core.js:155-190 | `NormalizedFrom`: each of the 32 canonical fields is its raw field normalised under that field's rule (the domain list filtered, else the default scope); the result is canonical |
| `CostModel.ReferenceClients` | server/finops-core.js:587 | the reference count is nRef when positive, else 100, and is always positive |
| `CostModel.TotalCostAtClients` | server/finops-core.js:269-272 | the total cost curve at n, with every count below one client costed as one client |
| `CostModel.MinPriceAtClients` | server/finops-core.js:302-306 | the minimum price times the (clamped) client count is the total cost there plus the markup |
| `CostModel.SafeN` | server/finops-core.js:270 | the client count is clamped to at least 1 |
| `CostModel.ApplyOverrides` | server/finops-core.js:426-431 | nMax is replaced only by a value of at least 10; markup and commitment factor are clamped at 0 and 0.01; a derivation note only for the discount |
| `CostModel.Calibrate` | server/finops-core.js:433-443 | K and c are fitted so that dev per client and total infra at the reference count equal the supplied figures; nothing else changes |
| `CostModel.ResolveArpu` | server/finops-core.js:445-462 | ARPU precedence: manual ARPU, then target price, then minimum price at target clients (only with a cost basis), else missing; notes only for the planning modes |
| `CostModel.DeriveModel` | server/finops-core.js:408-465 | the calibrated model reproduces the supplied dev and infra costs at the reference count; parameters clamped; ARPU mode and notes follow the precedence |
| `CostModel.ArpuUsed` | server/finops-core.js:588-590 | the ARPU used is the positive effective ARPU, else the positive input ARPU, else none; it is always positive |
| `Scanner.Limit` | server/finops-core.js:275 | the scan limit is the rounded maximum and at least 1 |
| `Scanner.ScanEconomicRange` | server/finops-core.js:274-300 | break-even is the FIRST count within the limit where revenue covers cost, or none exists; the minimum unit cost is at the first minimising count |
| `Scanner.FindRequiredClientsForTargetPrice` | server/finops-core.js:308-316 | the least count whose minimum price is at most the target, or none when the target is not positive or no count in range reaches it |
| `Scanner.FindRequiredClientsForTargetPriceWithReliability` | server/finops-core.js:318-329 | the same search with the load, clamped at zero, added to the total |
| `Scanner.NoLoadAgrees` | server/finops-core.js:318-329 | with zero load, the adjusted price is the plain minimum price |
| `Scanner.LoadRaisesPrice` | server/finops-core.js:325 | a non-negative load never lowers the adjusted price |
| `Scanner.LoadNeverHelps` | server/finops-core.js:308-329 | the count needed with a reliability load is never below the count needed without it |
| `Domains.MakeRow` | server/finops-core.js:336-350 | a row is in scope iff selected, is provided iff its cost is positive, and its normalised cost times n is its monthly cost |
| `Domains.Rows` | server/finops-core.js:336 | one row per schema domain, in schema order |
| `Domains.InScope` | server/finops-core.js:352 | exactly the in-scope rows |
| `Domains.ProvidedRows` | server/finops-core.js:354 | exactly the provided rows |
| `Domains.MissingLabels` | server/finops-core.js:380 | exactly the captions of unprovided rows |
| `Domains.MissingLabelsConcat` | server/finops-core.js:380 | the missing labels of concatenated rows are those of each part, in row order |
| `Domains.InScopeTotalIsWeighted` | server/finops-core.js:359 | the in-scope sum equals the 0/1-weighted sum over all rows |
| `Domains.SumNonNegative` | server/finops-core.js:359 | a sum of non-negative monthly costs is non-negative |
| `Domains.HasNonCloud` | server/finops-core.js:361-362 | true exactly when some row other than cloud is present (and provided, when asked) |
| `Domains.ScopeSelectsARow` | server/finops-core.js:333-353 | a normalised scope always selects at least one row |
| `Domains.CanonicalScopeUnchanged` | server/finops-core.js:333 | re-normalising an already canonical scope gives it back |
| `Domains.Grade` | server/finops-core.js:364-366 | High needs coverage of at least 80%, two domains and a provided non-cloud cost; Medium needs coverage of at least 50%; otherwise Low |
| `Domains.Notices` | server/finops-core.js:368-382 | the default-baseline warning, the missing-cost warning with exactly the missing labels, and the single-domain and cloud-only advisories, each iff its condition holds; warnings are baseline then missing costs, advisories single-domain then cloud-only |
| `Domains.BuildNormalizationSnapshot` | server/finops-core.js:331-406 | `SnapshotOf`: rows of the selected scope; selected and provided counts; coverage = provided/selected·100 and schema coverage = provided/6·100, both in [0, 100]; total = the in-scope sum, non-negative; normalised total per reference client; the confidence grade; warnings and advisories, each iff its condition, in push order |
| `Domains.SnapshotFields` | server/finops-core.js:331-406 | on normalised inputs each field of the snapshot is the one the rows of the inputs' own scope determine |
| `Domains.SnapshotDetermined` | server/finops-core.js:331-406 | on normalised inputs the snapshot is a function of the inputs: two snapshots that both fit them are equal |
| `Reliability.OrElse` | server/finops-core.js:488-497 | the `or` fallback: a zero or missing value gives the fallback |
| `Reliability.ClampPercent` | server/finops-core.js:128-132 | the result is in [0, 100], a value within range passes, a missing value gives the fallback |
| `Reliability.CountProvided` | server/finops-core.js:134-139 | the count is at most the length, and equals it iff every value is present |
| `Reliability.Resolve` | server/finops-core.js:485-506 | resolved inputs are in range; a zero or missing FTE count counts as one; the defaults apply |
| `Reliability.Band` | server/finops-core.js:527-532 | high iff failure share ≥ 0.2, breach gap ≥ 0.5 or SLI < 99; medium iff not high and (≥ 0.1, ≥ 0.1 or < 99.5) |
| `Reliability.DataGrade` | server/finops-core.js:546-552 | high for at least 8 provided inputs, medium for 5-7, else low |
| `Reliability.Downtime` | server/finops-core.js:502 | downtime lies between 0 and the minutes in the month |
| `Reliability.Penalty` | server/finops-core.js:505-509 | a positive override wins; otherwise breach gap times rate; never negative |
| `Reliability.Labor` | server/finops-core.js:511 | incident labour is non-negative |
| `Reliability.RevenueAtRisk` | server/finops-core.js:512 | revenue at risk is non-negative |
| `Reliability.ChurnRisk` | server/finops-core.js:513 | churn risk is non-negative |
| `Reliability.ComputeReliabilityMetrics` | server/finops-core.js:467-569 | disabled gives the all-null record; enabled: failure cost is the sum of the four terms, adjusted cost is modelled cost plus investment plus failure, band and confidence as graded |
| `Reliability.FailureShareBounded` | server/finops-core.js:523-525 | the failure-cost share lies in [0, 1] |
| `Reliability.BandByAvailability` | server/finops-core.js:528 | observed availability below 99% always means the high band |
| `Reliability.ZeroFteCountsAsOne` | server/finops-core.js:490 | a supplied zero FTE count costs as much labour as one person |
| `Health.HealthSignals` | server/finops-core.js:735-743 | revenue, contribution margin, CCER (present iff infra is positive, with ccer·infra = revenue) and commitment saving gap |
| `Health.TotalDeductionConcat` | server/finops-core.js:748-775 | deductions add up over concatenated check lists |
| `Health.BreakEvenCheck` | server/finops-core.js:751-757 | deducts 35 when there is no break-even count in range, or when the sample is below the first break-even count |
| `Health.CostChecks` | server/finops-core.js:759-775 | CCER below 1, CCER below 3, a non-positive margin and a commitment gap above 15% are each reported, and only when they hold, in push order |
| `Health.ScoringChecks` | server/finops-core.js:735-777 | `ChecksReport`: score = 100 − deductions, within [10, 100]; the checks are in push order (one per stage), every failing condition is reported and every report is justified |
| `Health.ZoneOf` | server/finops-core.js:779-788 | red below 40, yellow 40-69, green from 70 |
| `Health.ComputeHealth` | server/finops-core.js:716-802 | `HealthMeaning`: awaiting, with no score and no checks, exactly when infra or ARPU is missing; otherwise score = 100 − deductions in [10, 100], its zone, the scored checks exactly those the signals call for in push order, and the planning note last exactly in planning modes |
| `Health.InPushOrderStrict` | server/finops-core.js:748-775 | checks in push order have strictly increasing stages, so no check is reported twice |
| `Health.PlanningNoteAppended` | server/finops-core.js:790-799 | the planning note keeps the push order and the deductions and comes last; the scored checks are the rest |
| `Recommendations.ZoneKey` | server/finops-core.js:779-788 | a zone's key is a risk zone exactly when it is scored |
| `Recommendations.PriorityWeight` | server/finops-core.js:804-808 | high 0, medium 1, otherwise 2 |
| `Recommendations.CategoryOf` | server/finops-core.js:810-813 | a known category is kept, anything else becomes "all" |
| `Recommendations.NormalizeRecommendationCategory` | server/finops-core.js:810-813 | a known category string is kept, anything else (non-strings too) becomes "all" |
| `Recommendations.Contains` | server/finops-core.js:823-826 | substring search is true iff the needle occurs at some index |
| `Recommendations.MatchesAny` | server/finops-core.js:823-826 | a rule matches iff one of its words occurs |
| `Recommendations.FirstMatch` | server/finops-core.js:823-827 | a category is found iff some rule matches |
| `Recommendations.FirstMatchIsFirst` | server/finops-core.js:823-827 | the category found is that of the first matching rule |
| `Recommendations.InferRecommendationCategory` | server/finops-core.js:815-828 | an explicit category is kept ("all" becomes infrastructure); otherwise the first keyword rule that matches the lower-cased text, else infrastructure |
| `Recommendations.Strategic` | server/finops-core.js:839-879 | a strategic item carries its category, its zone alone and no providers |
| `Recommendations.BuildStrategicRecommendations` | server/finops-core.js:830-883 | none outside risk zones or without ARPU; below the cost floor with no break-even, the raise-ARPU (pricing, high), funnel (marketing, medium) and retention (CRM, high) items with the ARPU, floor, floor count, shortfall and uplift percentage; short of break-even, the one break-even-gap item with the client gap (at least 1) and the break-even count; otherwise none |
| `Recommendations.BuildRecommendationContext` | server/finops-core.js:885-902 | `ContextOf`: the reference count, the ARPU used, the first break-even count over at least 20000 clients (else none) and the first minimiser of the unit cost with its cost |
| `Recommendations.ContextDetermined` | server/finops-core.js:885-902 | the context is a function of the inputs: two contexts of the same inputs are equal |
| `Recommendations.WithCategories` | server/finops-core.js:914 | every item gets its inferred category, nothing else changes |
| `Recommendations.Filter` | server/finops-core.js:915-917 | exactly the items of the zone, of a selected provider (or provider-neutral) and of the category |
| `Recommendations.SortByPriority` | server/finops-core.js:918 | the priority sort is a permutation of its input |
| `Recommendations.SortIsBuckets` | server/finops-core.js:918 | the sort is stable: high items, then medium, then low, each in input order |
| `Recommendations.Ranked` | server/finops-core.js:905-918 | empty outside risk zones; every item admitted and categorised; weights non-decreasing |
| `Recommendations.RankedIsStableSort` | server/finops-core.js:913-918 | the ranking is a permutation of the admitted items, equal to their priority buckets in order |
| `Recommendations.Project` | server/finops-core.js:919-926 | each ranked recommendation becomes one output item, in order, with its title, priority, providers, category, description, action and the figures its texts print |
| `Recommendations.RankedItems` | server/finops-core.js:913-926 | the output is well ranked: category respected, weights ordered, a selected provider shared |
| `Recommendations.PrioritizedDetermined` | server/finops-core.js:904-927 | the recommendations are a function of the request: two lists that both fit it are equal |
| `Recommendations.StrategicFor` | server/finops-core.js:907-912 | the strategic items are those of the context the inputs determine in a risk zone, else none |
| `Recommendations.BuildPrioritizedRecommendations` | server/finops-core.js:904-927 | `PrioritizedAs`: empty outside risk zones; otherwise the projected stable ranking of the strategic items of the inputs' context followed by the catalog; well ranked |
| `Recommendations.RecommendTool` | server/finops-core.js:929-946 | `RecommendedFor`: empty unless the zone argument is a risk zone; well ranked; the prioritised recommendations of the zone, the normalised providers and category, and the inputs normalised and derived when an object or array is given |
| `Base64.ValueOf` | server/finops-core.js:966 | a decoded character value maps back to the character |
| `Base64.CharOfValue` | server/finops-core.js:951-955 | the standard alphabet is injective; no digit is '=', '-' or '_'; '+' and '/' are exactly 62 and 63 |
| `Base64.Repeat` | server/finops-core.js:965 | k copies of the character |
| `Base64.EncodeLength` | server/finops-core.js:951-952 | an encoding has 4·⌈n/3⌉ characters |
| `Base64.DigitsShape` | server/finops-core.js:951-952 | the unpadded encoding has only alphabet characters and length 4·⌈n/3⌉ minus the padding |
| `Base64.DecodeEncode` | server/finops-core.js:951-952 | decoding the standard encoding gives back the bytes |
| `Base64.ReplaceAll` | server/finops-core.js:953-954 | every occurrence of one character is replaced, nothing else changes |
| `Base64.StripPadding` | server/finops-core.js:955 | the trailing '=' run is removed: a prefix that does not end in '=' |
| `Base64.ToToken` | server/finops-core.js:951-955 | the token is exactly the Base64 digits with '+' and '/' made URL-safe: the padding goes and nothing else |
| `Base64.StrippedUrlEncoding` | server/finops-core.js:951-955 | stripping the padding from the URL-safe encoding leaves the URL-safe digits |
| `Base64.FromToken` | server/finops-core.js:964-966 | a token whose length is 1 modulo 4 never decodes |
| `Base64.LastQuadPadded` | server/finops-core.js:966 | padding before the last two characters of a quad is rejected |
| `Base64.TokenAlphabet` | server/finops-core.js:951-955 | a token has no '+', '/' or '=' |
| `Base64.UrlSafeReverts` | server/finops-core.js:964 | the URL-safe substitution is undone by the reverse substitution |
| `Base64.PadRestored` | server/finops-core.js:965 | the decoder restores exactly the padding the encoder stripped |
| `Base64.TokenRoundTrip` | server/finops-core.js:948-966 | decoding a token gives back the bytes |
| `ShareState.BuildSerializedInputState` | server/finops-core.js:974-989 | the loop over `Object.entries` of an object or array computes the serialised input state; any other value gives {} |
| `ShareState.SerializedInputStateClean` | server/finops-core.js:974-989 | no techDomains; currency only as a non-default known code; keys from the entries; an empty value only from an array; every other present entry kept as `String(value)` |
| `ShareState.StringOf` | server/finops-core.js:986 | `String(value)`: an empty array prints as "", and an array of two or more items prints with a comma |
| `ShareState.JoinFrom` | server/finops-core.js:986 | `join(",")` of the items from k on: empty past the end, with a comma when two or more items remain |
| `ShareState.CodeTextIsString` | server/finops-core.js:124 | the text the currency normaliser reads is `String(value)` |
| `ShareState.SerializedArrayItems` | server/finops-core.js:975-987 | an array input is serialised item by item: each present item, as `String(item)`, under its index |
| `ShareState.DomainScopeOf` | server/finops-core.js:1001 | the payload's domains become a domain scope |
| `ShareState.VocabularyOf` | server/finops-core.js:1002-1003 | the payload's providers and curves become vocabulary lists |
| `ShareState.InputStateOf` | server/finops-core.js:992-994 | the input state is always an object or array: `i` when it is one, else `inputs`, else {} |
| `ShareState.NormalizedPayloadWellFormed` | server/finops-core.js:991-1005 | a normalised payload has version 1, known UI intent and mode, a domain scope, vocabulary lists, and a clean input state |
| `ShareState.NormalizeShareStatePayload` | server/finops-core.js:991-1005 | the method computes the normalised payload |
| `ShareState.StrArray` | server/finops-core.js:1001-1003 | a list of strings as a JavaScript array, element by element |
| `ShareState.ToRaw` | server/finops-core.js:996-1004 | the state's JSON object has each of the seven keys with its value |
| `ShareState.EncodeShareState` | server/finops-core.js:948-959 | a token is URL-safe and unpadded |
| `ShareState.DecodeShareState` | server/finops-core.js:961-972 | only objects or arrays are returned; the empty token is rejected |
| `ShareState.TokenNonEmpty` | server/finops-core.js:948-959 | non-empty bytes give a non-empty token |
| `ShareState.ShareStateRoundTrip` | server/finops-core.js:948-972 | with a round-tripping JSON codec, decoding an encoded state gives back its JSON view |
| `ShareState.EncodeStateTool` | server/finops-core.js:1007-1022 | fails exactly when the encoding is empty; otherwise returns the token of the normalised payload, from `state` when it is an object or array, else from the separate arguments |
| `ShareState.DecodeStateTool` | server/finops-core.js:1024-1029 | a missing token is an error; a success is an object or array |
| `ShareState.ToolRoundTrip` | server/finops-core.js:1007-1029 | the decode tool gives back what the encode tool encoded |
| `Engine.Ceil` | server/finops-core.js:678 | `Math.ceil` is the least integer at or above its argument |
| `Engine.ReferenceFigures` | server/finops-core.js:599-608 | each figure at the reference count is present only with the inputs it needs; minimum price as in the scanners, margin = ARPU − infra per client, CCER·infra = revenue or Infinity for zero infra |
| `Engine.PlanningTargets` | server/finops-core.js:612-618 | the clients needed at the target price are the least affordable count (none when unreachable) and the target price is the minimum price at the target clients, both only with a cost input |
| `Engine.SelectBreakEven` | server/finops-core.js:643-655 | only with ARPU and a cost: the planning answer of the mode first, else (in every mode) the scanned count exactly when it lies within nMax |
| `Engine.ScannedBreakEvenWithin` | server/finops-core.js:641-655 | the scanned count is within nMax iff some count within nMax breaks even |
| `Engine.BreakEvenChoice` | server/finops-core.js:620-655 | `BreakEvenMeaning`: none without ARPU and a cost; in price mode the planning answer when there is one; in clients mode the least count affordable at the required price when some count is; otherwise the first break-even count, reported exactly when one lies within nMax |
| `Engine.BreakEvenDetermined` | server/finops-core.js:643-655 | the break-even meaning pins the count: two counts that both fit it are equal |
| `Engine.TargetRevenueAtTargetClients` | server/finops-core.js:657-660 | planning by client count alone: the target revenue is exactly the total cost at the target count plus the markup |
| `Engine.TargetRevenueAtTargetPrice` | server/finops-core.js:661-662 | planning by price alone: the target revenue is the target price times the least affordable count and covers the total cost plus the markup there |
| `Engine.PriceCoversCost` | server/finops-core.js:661-662 | a per-client price at least the cost share plus the markup earns at least the cost plus the markup |
| `Engine.ReliabilityLoad` | server/finops-core.js:636-639 | a load exists iff reliability is enabled and priced; it is the investment plus the failure cost, each clamped at zero |
| `Engine.ReliabilityFigures` | server/finops-core.js:665-679 | `ReliabilityMeaning`: adjusted profit = revenue − adjusted cost; required ARPU = adjusted cost per reference client plus markup; uplift = max(0, required − ARPU); the least count affordable at the ARPU with the load (none only when no count in range is); extra clients = max(0, ⌈required count − nSample⌉) |
| `Engine.PricedReliability` | server/finops-core.js:624-635 | the snapshot is the one the inputs determine (`SnapshotOf`), and reliability is priced on its monthly total when positive, else on the model total |
| `Engine.ComputeOutputs` | server/finops-core.js:571-714 | `OutputsMeaning`: planning targets, break-even meaning, target revenue, reference figures, the normalisation snapshot of the inputs (`SnapshotOf`) as budget basis of the reliability metrics, and the reliability-adjusted figures |
| `Engine.MarginAgreesWithHealth` | server/finops-core.js:605 | the margin in the outputs equals the one the health check scores |
| `Engine.HealthTool` | server/finops-core.js:1031-1035 | `HealthFor`: the report is the health of the inputs normalised and derived; in particular no infra input means awaiting, and a score lies in [10, 100] with its zone |
| `Engine.CanonicalAsRaw` | server/finops-core.js:1064 | the normalised inputs as a JavaScript object |
| `Engine.TokenPayload` | server/finops-core.js:1063-1070 | the token payload carries the serialised normalised inputs and the normalised providers |
| `Engine.AssessFor` | server/finops-core.js:1046-1059 | health iff asked for, with its meaning; recommendations iff asked for, then the prioritised recommendations of the health zone (else "awaiting") in every category, well ranked, and empty without a scored zone |
| `Engine.CalculateTool` | server/finops-core.js:1037-1094 | normalised inputs, derivation and outputs with their meanings, the normalisation snapshot included; health and token iff their options; health with its meaning; recommendations iff asked for, prioritised for the health zone in every category, empty without a scored zone; the token encodes the normalised payload of the normalised inputs, providers and curves |

## Left out

- JsValues.ToNumber: arrays and objects coerced to numbers (`Number([])` is 0, `Number(["5"])` is 5) are not modelled; they give no number.
- Canonicalizer.NormalizeCurrencyCode: a number, alone or as the only item of an array, is taken never to print as a currency code; number formatting is abstract, and decimal numbers contain no letters other than `e`.
- Object key order is not modelled: objects are maps, so `Object.entries` order and the token's byte layout beyond the `Serialize` parameter are abstract.
- JavaScript numbers are exact reals: floating-point rounding, `toFixed` formatting and overflow are not modelled.
- `Math.pow` is a parameter with only positivity assumed; the cost curves are exact in terms of it.
- Message texts (titles, descriptions, actions, warnings, advisories, check messages) are enumerations with their figures rather than formatted strings; number formatting inside them is not modelled.
- `buildData` (the chart series) and the `series` output of `calculateTool` are not modelled: they are sampled curves for display.
- `INPUT_SCHEMA_*`, the snapshot's `formula` and `weightingPolicy` constants and zone titles are descriptive constants and are not modelled.
- The MCP transports and agent servers (`server/index.js`, `server/agents/`) are not modelled.
- Case mapping covers ASCII letters and the long s, the only non-ASCII character whose upper case can help spell EUR, GBP or USD. Other non-ASCII mappings, such as dotless i to I or ß to SS, are not modelled. Trimming covers the common JavaScript whitespace characters.
- The `meta` block and the `model` echo of `calculateTool`'s result are not modelled separately; `Engine.CalculateTool` returns the normalised inputs, the derivation, the outputs, health, recommendations and token.
- Node's lenient Base64 decoder (which skips invalid characters and ignores a dangling sextet) is modelled as a strict decoder, so `Base64.FromToken`'s odd-length rule and `Base64.LastQuadPadded` describe the model; tokens produced by the encoder decode the same either way.
- UTF-8 encoding and `JSON.stringify`/`JSON.parse` are parameters (`Serialize`, `Parse`); the round trip is proved for any codec that round-trips (`ShareState.Faithful`).
- The `try`/`catch` of `encodeShareState` is modelled as an empty serialisation: `ShareState.EncodeStateTool` fails exactly then.
- ShareState.SerializedInputStateClean: states that an empty serialised value comes only from an array (an empty array stringifies to ""), rather than that no value is empty, because the code does store such values.
- Health.ComputeHealth: the score is stated as 100 minus the deductions; the `Math.max(0, Math.min(100, …))` clamp and `Math.round` are the identity on the reachable scores [10, 100] and are not separately modelled.
- Health.ComputeHealth: the `!failed.includes("Planning mode: …")` guard is always true (those strings are never pushed) and is modelled as absent.
- Priority is an enumeration of the three values the catalog uses (high, medium, low); `priorityWeight`'s fallback weight 2 is the weight of low.
