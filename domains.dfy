/**
 * Multi-domain cost normalisation (server/finops-core.js:28-35, 331-406):
 * six fixed technology domains, each either in the selected scope or not and
 * either provided (a positive monthly cost) or not, rolled up into coverage
 * percentages, a scope total, a confidence level and warnings.
 */
module Domains {
  import opened Wrappers
  import opened JsValues
  import opened Canonicalizer
  import opened CostModel

  /** One entry of TECH_DOMAIN_SCHEMA: domain key, the input field holding its cost, display caption. */
  datatype DomainDef = DomainDef(key: string, inputKey: string, caption: string)

  const Schema: seq<DomainDef> := [
    DomainDef("cloud", "infraTotal", "Cloud"),
    DomainDef("saas", "costSaaS", "SaaS"),
    DomainDef("licensing", "costLicensing", "Licensing"),
    DomainDef("private-cloud", "costPrivateCloud", "Private Cloud"),
    DomainDef("data-center", "costDataCenter", "Data Center"),
    DomainDef("labor", "costLabor", "Labor")
  ]

  /** `inputs[def.inputKey]` on the canonical input. */
  function DomainCost(ci: CanonicalInput, inputKey: string): Option<real> {
    if inputKey == "infraTotal" then ci.infraTotal
    else if inputKey == "costSaaS" then ci.costSaaS
    else if inputKey == "costLicensing" then ci.costLicensing
    else if inputKey == "costPrivateCloud" then ci.costPrivateCloud
    else if inputKey == "costDataCenter" then ci.costDataCenter
    else if inputKey == "costLabor" then ci.costLabor
    else None
  }

  /** One row of the snapshot. */
  datatype Row = Row(key: string, caption: string, inputKey: string, inScope: bool, provided: bool, monthly: real, normalized: real)

  /** A schema entry evaluated against the input: only a positive cost counts as provided. */
  function MakeRow(def: DomainDef, ci: CanonicalInput, selected: seq<string>, nSample: real): (row: Row)
    requires nSample > 0.0
    ensures row.key == def.key && row.caption == def.caption && row.inputKey == def.inputKey
    ensures row.inScope <==> def.key in selected
    ensures row.provided <==> Positive(DomainCost(ci, def.inputKey))
    ensures row.monthly == (if row.provided then DomainCost(ci, def.inputKey).value else 0.0)
    ensures row.monthly >= 0.0 && row.normalized * nSample == row.monthly
  {
    var raw := DomainCost(ci, def.inputKey);
    var monthly := if Positive(raw) then raw.value else 0.0;
    Row(def.key, def.caption, def.inputKey, def.key in selected, monthly > 0.0, monthly, monthly / nSample)
  }

  /** `TECH_DOMAIN_SCHEMA.map(...)`. */
  function Rows(ci: CanonicalInput, selected: seq<string>, nSample: real): (rows: seq<Row>)
    requires nSample > 0.0
    ensures |rows| == |Schema|
    ensures forall i :: 0 <= i < |Schema| ==> rows[i] == MakeRow(Schema[i], ci, selected, nSample)
  {
    seq(|Schema|, i requires 0 <= i < |Schema| => MakeRow(Schema[i], ci, selected, nSample))
  }

  /** `rows.filter((row) => row.inScope)`. */
  function InScope(rows: seq<Row>): (r: seq<Row>)
    ensures |r| <= |rows|
    ensures forall x :: x in r <==> x in rows && x.inScope
  {
    if |rows| == 0 then []
    else (if rows[0].inScope then [rows[0]] else []) + InScope(rows[1..])
  }

  /** `rows.filter((row) => row.provided)`. */
  function ProvidedRows(rows: seq<Row>): (r: seq<Row>)
    ensures |r| <= |rows|
    ensures forall x :: x in r <==> x in rows && x.provided
  {
    if |rows| == 0 then []
    else (if rows[0].provided then [rows[0]] else []) + ProvidedRows(rows[1..])
  }

  /** Labels of the rows that are not provided, in row order. */
  function MissingLabels(rows: seq<Row>): (r: seq<string>)
    ensures forall x :: x in r <==> exists row :: row in rows && !row.provided && row.caption == x
  {
    if |rows| == 0 then []
    else
      var rest := MissingLabels(rows[1..]);
      assert forall row :: row in rows <==> row == rows[0] || row in rows[1..];
      (if rows[0].provided then [] else [rows[0].caption]) + rest
  }

  /** The labels of a concatenation are the labels of each part, in the same order. */
  lemma {:induction false} MissingLabelsConcat(a: seq<Row>, b: seq<Row>)
    ensures MissingLabels(a + b) == MissingLabels(a) + MissingLabels(b)
  {
    if |a| > 0 {
      assert (a + b)[1..] == a[1..] + b;
      MissingLabelsConcat(a[1..], b);
    } else {
      assert a + b == b;
    }
  }

  /** `inScopeRows.reduce((sum, row) => sum + row.monthly, 0)`. */
  function SumMonthly(rows: seq<Row>): real {
    if |rows| == 0 then 0.0 else rows[0].monthly + SumMonthly(rows[1..])
  }

  /** The documented formula: sum over all domains of alpha_d * C_d, with alpha_d = 1 exactly when in scope. */
  function WeightedTotal(rows: seq<Row>): real {
    if |rows| == 0 then 0.0
    else (if rows[0].inScope then 1.0 else 0.0) * rows[0].monthly + WeightedTotal(rows[1..])
  }

  /** Summing the in-scope rows is the alpha-weighted sum over every row. */
  lemma {:induction false} InScopeTotalIsWeighted(rows: seq<Row>)
    ensures SumMonthly(InScope(rows)) == WeightedTotal(rows)
  {
    if |rows| > 0 {
      InScopeTotalIsWeighted(rows[1..]);
      var head := if rows[0].inScope then [rows[0]] else [];
      SumAppend(head, InScope(rows[1..]));
    }
  }

  lemma {:induction false} SumAppend(a: seq<Row>, b: seq<Row>)
    ensures SumMonthly(a + b) == SumMonthly(a) + SumMonthly(b)
  {
    if |a| > 0 {
      assert (a + b)[1..] == a[1..] + b;
      SumAppend(a[1..], b);
    } else {
      assert a + b == b;
    }
  }

  /** Monthly costs are never negative, so neither is their sum. */
  lemma {:induction false} SumNonNegative(rows: seq<Row>)
    requires forall r :: r in rows ==> r.monthly >= 0.0
    ensures SumMonthly(rows) >= 0.0
  {
    if |rows| > 0 {
      assert forall r :: r in rows[1..] ==> r in rows;
      SumNonNegative(rows[1..]);
    }
  }

  /** `rows.some((row) => row.key !== "cloud" && (!needProvided || row.provided))`. */
  function HasNonCloud(rows: seq<Row>, needProvided: bool): (b: bool)
    ensures b <==> exists r :: r in rows && r.key != "cloud" && (needProvided ==> r.provided)
  {
    if |rows| == 0 then false
    else
      assert forall row :: row in rows <==> row == rows[0] || row in rows[1..];
      (rows[0].key != "cloud" && (needProvided ==> rows[0].provided)) || HasNonCloud(rows[1..], needProvided)
  }

  datatype Confidence = Low | Medium | High

  /** Warnings and advisories; the message text is not modelled. */
  datatype Warning = DefaultBaseline | MissingCosts(labels: seq<string>)
  datatype Advisory = SingleDomain | CloudOnly

  datatype Snapshot = Snapshot(
    rows: seq<Row>,
    selectedDomains: seq<string>,
    selectedCount: nat,
    providedInScopeCount: nat,
    totalTrackedDomains: nat,
    schemaCoveragePct: real,
    coveragePct: real,
    totalMonthly: real,
    normalizedTotal: real,
    confidence: Confidence,
    warnings: seq<Warning>,
    advisories: seq<Advisory>)

  /** `p / s * 100` lies in [0, 100] for 0 <= p <= s. */
  lemma PercentBounds(p: nat, s: nat)
    requires 0 < s && p <= s
    ensures 0.0 <= (p as real / s as real) * 100.0 <= 100.0
  {
    assert p as real / s as real <= 1.0 by {
      assert (p as real / s as real) * s as real == p as real;
    }
  }

  /** A non-empty scope of schema keys selects at least one row. */
  lemma ScopeSelectsARow(ci: CanonicalInput, selected: seq<string>, nSample: real)
    requires nSample > 0.0 && IsDomainScope(selected)
    ensures |InScope(Rows(ci, selected, nSample))| >= 1
  {
    var rows := Rows(ci, selected, nSample);
    assert selected[0] in TechDomainKeys;
    var i :| 0 <= i < |TechDomainKeys| && TechDomainKeys[i] == selected[0];
    assert Schema[i].key == TechDomainKeys[i];
    assert rows[i].inScope && rows[i] in rows;
    assert rows[i] in InScope(rows);
  }

  /** A canonical scope is already normalised, so the snapshot keeps it as it is. */
  lemma CanonicalScopeUnchanged(ci: CanonicalInput)
    requires Canonical(ci)
    ensures KeepVocabulary(AsStrings(ci.techDomains), TechDomainKeys) == ci.techDomains
  {
    KeepVocabularyIdempotent(ci.techDomains, TechDomainKeys);
  }

  /** The missing-cost labels are exactly those of the in-scope rows without a cost. */
  lemma MissingLabelsOfScope(rows: seq<Row>)
    ensures forall x :: x in MissingLabels(InScope(rows)) <==>
      exists r :: r in rows && r.inScope && !r.provided && r.caption == x
  {
  }

  /** No non-cloud row in scope means every in-scope row is Cloud. */
  lemma CloudOnlyScope(rows: seq<Row>)
    ensures !HasNonCloud(InScope(rows), false) <==> forall r :: r in rows && r.inScope ==> r.key == "cloud"
  {
  }

  /** The confidence rule: High needs broad coverage of a multi-domain scope with a non-cloud cost. */
  function Grade(coveragePct: real, selectedCount: nat, nonCloudProvidedInScope: bool): (c: Confidence)
    ensures c == High <==> coveragePct >= 80.0 && selectedCount >= 2 && nonCloudProvidedInScope
    ensures c == Medium <==> c != High && coveragePct >= 50.0
    ensures c == Low <==> coveragePct < 50.0
  {
    if coveragePct >= 80.0 && selectedCount >= 2 && nonCloudProvidedInScope then High
    else if coveragePct >= 50.0 then Medium
    else Low
  }

  /** The default-baseline warning, pushed first when it applies. */
  function BaselineNotice(nRef: Option<real>, totalMonthly: real): (w: seq<Warning>)
    ensures |w| <= 1 && (DefaultBaseline in w <==> !Positive(nRef) && totalMonthly > 0.0)
  {
    if !Positive(nRef) && totalMonthly > 0.0 then [DefaultBaseline] else []
  }

  /** The missing-costs warning, pushed last when some in-scope row has no cost. */
  function MissingNotice(inScopeRows: seq<Row>, providedInScopeCount: nat): (w: seq<Warning>)
    ensures |w| <= 1 && (w != [] <==> |inScopeRows| > 0 && providedInScopeCount < |inScopeRows|)
    ensures forall x :: x in w ==> x == MissingCosts(MissingLabels(inScopeRows))
  {
    if |inScopeRows| > 0 && providedInScopeCount < |inScopeRows| then [MissingCosts(MissingLabels(inScopeRows))] else []
  }

  /** The warning and advisory pushes of the snapshot, given its roll-up over the in-scope rows. */
  method Notices(nRef: Option<real>, inScopeRows: seq<Row>, totalMonthly: real, providedInScopeCount: nat)
    returns (warnings: seq<Warning>, advisories: seq<Advisory>)
    ensures DefaultBaseline in warnings <==> !Positive(nRef) && totalMonthly > 0.0
    ensures (exists labels :: MissingCosts(labels) in warnings) <==>
      |inScopeRows| > 0 && providedInScopeCount < |inScopeRows|
    ensures forall labels :: MissingCosts(labels) in warnings ==> labels == MissingLabels(inScopeRows)
    ensures SingleDomain in advisories <==> |inScopeRows| == 1
    ensures CloudOnly in advisories <==> !HasNonCloud(inScopeRows, false)
    ensures warnings == BaselineNotice(nRef, totalMonthly) + MissingNotice(inScopeRows, providedInScopeCount)
    ensures advisories == (if |inScopeRows| == 1 then [SingleDomain] else []) +
                          (if !HasNonCloud(inScopeRows, false) then [CloudOnly] else [])
  {
    warnings := [];
    advisories := [];
    if !Positive(nRef) && totalMonthly > 0.0 {
      warnings := warnings + [DefaultBaseline];
    }
    if |inScopeRows| == 1 {
      advisories := advisories + [SingleDomain];
    }
    if !HasNonCloud(inScopeRows, false) {
      advisories := advisories + [CloudOnly];
    }
    if |inScopeRows| > 0 && providedInScopeCount < |inScopeRows| {
      warnings := warnings + [MissingCosts(MissingLabels(inScopeRows))];
    }
  }

  /** `normalizeTechDomains(inputs.techDomains)` on the canonical input. */
  method SelectedScope(ci: CanonicalInput) returns (selected: seq<string>)
    ensures IsDomainScope(selected)
    ensures Canonical(ci) ==> selected == ci.techDomains
  {
    selected := NormalizeTechDomains(Arr(AsStrings(ci.techDomains)));
    if Canonical(ci) {
      CanonicalScopeUnchanged(ci);
    }
  }

  /**
   * What `buildNormalizationSnapshot` reports for the inputs: the six domain
   * rows of the selected scope, the coverage and scope-total roll-ups, the
   * confidence grade, and each warning and advisory pushed at most once, in
   * push order, exactly when its condition holds.
   */
  ghost predicate SnapshotOf(s: Snapshot, ci: CanonicalInput) {
    && IsDomainScope(s.selectedDomains)
    && (Canonical(ci) ==> s.selectedDomains == ci.techDomains)
    && s.rows == Rows(ci, s.selectedDomains, ReferenceClients(ci.nRef))
    && s.totalTrackedDomains == |Schema|
    // counts and coverage
    && s.selectedCount == |InScope(s.rows)| >= 1
    && s.providedInScopeCount == |ProvidedRows(InScope(s.rows))| <= s.selectedCount
    && 0.0 <= s.coveragePct <= 100.0 && 0.0 <= s.schemaCoveragePct <= 100.0
    && s.schemaCoveragePct == (|ProvidedRows(s.rows)| as real / |Schema| as real) * 100.0
    && s.coveragePct == (s.providedInScopeCount as real / s.selectedCount as real) * 100.0
    // only in-scope costs are summed
    && s.totalMonthly == WeightedTotal(s.rows) >= 0.0
    && s.normalizedTotal == s.totalMonthly / ReferenceClients(ci.nRef)
    // confidence
    && s.confidence == Grade(s.coveragePct, s.selectedCount, HasNonCloud(InScope(s.rows), true))
    // warnings and advisories
    && (DefaultBaseline in s.warnings <==> !Positive(ci.nRef) && s.totalMonthly > 0.0)
    && ((exists labels :: MissingCosts(labels) in s.warnings) <==> s.providedInScopeCount < s.selectedCount)
    && (forall labels :: MissingCosts(labels) in s.warnings ==>
          forall x :: x in labels <==> exists r :: r in s.rows && r.inScope && !r.provided && r.caption == x)
    && (SingleDomain in s.advisories <==> s.selectedCount == 1)
    && (CloudOnly in s.advisories <==> forall r :: r in s.rows && r.inScope ==> r.key == "cloud")
    // each pushed at most once, in push order
    && s.warnings == BaselineNotice(ci.nRef, s.totalMonthly) + MissingNotice(InScope(s.rows), s.providedInScopeCount)
    && s.advisories == (if s.selectedCount == 1 then [SingleDomain] else []) +
                       (if !HasNonCloud(InScope(s.rows), false) then [CloudOnly] else [])
  }

  /** The snapshot that the selected scope's rows determine. */
  function SnapshotOfRows(ci: CanonicalInput, rows: seq<Row>): Snapshot
    requires |InScope(rows)| > 0
  {
    var inScopeRows := InScope(rows);
    var provided := |ProvidedRows(inScopeRows)|;
    var coveragePct := (provided as real / |inScopeRows| as real) * 100.0;
    var total := WeightedTotal(rows);
    Snapshot(rows, ci.techDomains, |inScopeRows|, provided, |Schema|,
             (|ProvidedRows(rows)| as real / |Schema| as real) * 100.0, coveragePct,
             total, total / ReferenceClients(ci.nRef),
             Grade(coveragePct, |inScopeRows|, HasNonCloud(inScopeRows, true)),
             BaselineNotice(ci.nRef, total) + MissingNotice(inScopeRows, provided),
             (if |inScopeRows| == 1 then [SingleDomain] else []) +
             (if !HasNonCloud(inScopeRows, false) then [CloudOnly] else []))
  }

  /** On normalised inputs every field of the snapshot is a function of the inputs. */
  lemma SnapshotFields(s: Snapshot, ci: CanonicalInput)
    requires Canonical(ci) && SnapshotOf(s, ci)
    ensures |InScope(s.rows)| > 0
    ensures s.rows == Rows(ci, ci.techDomains, ReferenceClients(ci.nRef))
    ensures s == SnapshotOfRows(ci, s.rows)
  {
    var e := SnapshotOfRows(ci, s.rows);
    assert s.selectedDomains == e.selectedDomains && s.rows == e.rows;
    assert s.selectedCount == e.selectedCount && s.providedInScopeCount == e.providedInScopeCount;
    assert s.totalTrackedDomains == e.totalTrackedDomains && s.schemaCoveragePct == e.schemaCoveragePct;
    assert s.coveragePct == e.coveragePct && s.totalMonthly == e.totalMonthly;
    assert s.normalizedTotal == e.normalizedTotal && s.confidence == e.confidence;
    assert s.warnings == e.warnings && s.advisories == e.advisories;
  }

  /** On normalised inputs the snapshot is a function of the inputs: two snapshots that both fit them are equal. */
  lemma SnapshotDetermined(s1: Snapshot, s2: Snapshot, ci: CanonicalInput)
    requires Canonical(ci) && SnapshotOf(s1, ci) && SnapshotOf(s2, ci)
    ensures s1 == s2
  {
    SnapshotFields(s1, ci);
    SnapshotFields(s2, ci);
  }

  /**
   * `buildNormalizationSnapshot`: evaluate the six domains against the
   * selected scope, roll up coverage and the scope total, grade confidence,
   * and push warnings and advisories.
   */
  method BuildNormalizationSnapshot(ci: CanonicalInput) returns (s: Snapshot)
    ensures SnapshotOf(s, ci)
  {
    var nSample := ReferenceClients(ci.nRef);
    var selected := SelectedScope(ci);
    var rows := Rows(ci, selected, nSample);
    var inScopeRows := InScope(rows);
    ScopeSelectsARow(ci, selected, nSample);

    var selectedCount := |inScopeRows|;
    var providedInScopeCount := |ProvidedRows(inScopeRows)|;
    var providedCount := |ProvidedRows(rows)|;
    var schemaCoveragePct := (providedCount as real / |rows| as real) * 100.0;
    PercentBounds(providedCount, |rows|);
    var coveragePct := (providedInScopeCount as real / selectedCount as real) * 100.0;
    PercentBounds(providedInScopeCount, selectedCount);

    var totalMonthly := SumMonthly(inScopeRows);
    InScopeTotalIsWeighted(rows);
    SumNonNegative(inScopeRows);
    var normalizedTotal := totalMonthly / nSample;
    var confidence := Grade(coveragePct, selectedCount, HasNonCloud(inScopeRows, true));
    var warnings, advisories := Notices(ci.nRef, inScopeRows, totalMonthly, providedInScopeCount);
    MissingLabelsOfScope(rows);
    CloudOnlyScope(rows);

    s := Snapshot(rows, selected, selectedCount, providedInScopeCount, |rows|, schemaCoveragePct, coveragePct,
                  totalMonthly, normalizedTotal, confidence, warnings, advisories);
  }
}
