/**
 * Unit-economics health score (server/finops-core.js:716-802): fixed
 * deductions from 100 for failed checks, a zone by score, and planning-mode
 * notes that never affect the score.
 */
module Health {
  import opened Wrappers
  import opened JsValues
  import opened Canonicalizer
  import opened CostModel
  import opened Scanner

  /** The failed checks; their message text is not modelled. */
  datatype Check =
    | NoBreakEven
    | BelowBreakEven(clients: int, breakEven: int)
    | CcerBelowOne(ccer: real)
    | CcerBelowBenchmark(ccer: real)
    | NegativeMargin(margin: real)
    | CommitmentGap(gapPct: real)
    | PlanningFromPrice
    | PlanningFromClients

  /** Points each check takes off the score; the planning notes take none. */
  function Deduction(c: Check): nat {
    match c
    case NoBreakEven => 35
    case BelowBreakEven(_, _) => 35
    case CcerBelowOne(_) => 30
    case CcerBelowBenchmark(_) => 15
    case NegativeMargin(_) => 20
    case CommitmentGap(_) => 5
    case PlanningFromPrice => 0
    case PlanningFromClients => 0
  }

  /** The order `computeHealth` pushes checks in: break-even, CCER, margin, commitment gap, planning note. */
  function Stage(c: Check): nat {
    match c
    case NoBreakEven => 0
    case BelowBreakEven(_, _) => 0
    case CcerBelowOne(_) => 1
    case CcerBelowBenchmark(_) => 1
    case NegativeMargin(_) => 2
    case CommitmentGap(_) => 3
    case PlanningFromPrice => 4
    case PlanningFromClients => 4
  }

  /** Each check belongs to a later stage than the one before it. */
  predicate InPushOrder(checks: seq<Check>) {
    |checks| <= 1 || (Stage(checks[0]) < Stage(checks[1]) && InPushOrder(checks[1..]))
  }

  /** Push order means at most one check per stage, so in particular no check twice. */
  lemma {:induction false} InPushOrderStrict(checks: seq<Check>)
    requires InPushOrder(checks)
    ensures forall i, j :: 0 <= i < j < |checks| ==> Stage(checks[i]) < Stage(checks[j])
  {
    if |checks| > 1 {
      InPushOrderStrict(checks[1..]);
      forall i, j | 0 <= i < j < |checks|
        ensures Stage(checks[i]) < Stage(checks[j])
      {
        assert checks[j] == checks[1..][j - 1];
        if i > 0 {
          assert checks[i] == checks[1..][i - 1];
        } else if j > 1 {
          assert checks[1] == checks[1..][0];
        }
      }
    }
  }

  function TotalDeduction(checks: seq<Check>): nat {
    if |checks| == 0 then 0 else Deduction(checks[0]) + TotalDeduction(checks[1..])
  }

  /** The quantities the checks test, at the reference client count. */
  datatype Signals = Signals(infraRaw: real, infraCud: real, revenue: real, contributionMargin: real, ccer: Option<real>, cudSaveGapPct: real)

  /** The revenue-to-infrastructure ratio is infinite (absent here) when infrastructure costs nothing. */
  function HealthSignals(nSample: real, arpuUsed: real, model: Model, pow: Pow): (s: Signals)
    requires nSample > 0.0
    ensures s.infraRaw == InfraRaw(nSample, model, pow) && s.infraCud == InfraCud(nSample, model, pow)
    ensures s.revenue == arpuUsed * nSample
    ensures s.contributionMargin == arpuUsed - s.infraRaw / nSample
    ensures s.ccer.Some? <==> s.infraRaw > 0.0
    ensures s.ccer.Some? ==> s.ccer.value * s.infraRaw == s.revenue
    ensures s.cudSaveGapPct == (if s.infraRaw > 0.0 then (s.infraRaw - s.infraCud) / s.infraRaw else 0.0)
  {
    var infraRaw := InfraRaw(nSample, model, pow);
    var infraCud := InfraCud(nSample, model, pow);
    var revenue := arpuUsed * nSample;
    Signals(infraRaw, infraCud, revenue, arpuUsed - infraRaw / nSample,
            if infraRaw > 0.0 then Some(revenue / infraRaw) else None,
            if infraRaw > 0.0 then (infraRaw - infraCud) / infraRaw else 0.0)
  }

  /** A break-even check is justified by the break-even scan. */
  predicate BreakEvenJustified(c: Check, nSample: real, arpu: real, limit: int, model: Model, pow: Pow) {
    match c
    case NoBreakEven => NeverBreaksEven(arpu, limit, model, pow)
    case BelowBreakEven(clients, k) =>
      clients == Round(nSample) && IsFirstBreakEven(arpu, limit, k, model, pow) && nSample < k as real
    case _ => false
  }

  /** A cost check is justified by the signals. */
  predicate CostJustified(c: Check, s: Signals) {
    match c
    case CcerBelowOne(x) => s.ccer == Some(x) && x < 1.0
    case CcerBelowBenchmark(x) => s.ccer == Some(x) && 1.0 <= x < 3.0
    case NegativeMargin(x) => x == s.contributionMargin && x <= 0.0
    case CommitmentGap(x) => x == s.cudSaveGapPct && x > 0.15
    case _ => false
  }

  /** A scoring check is justified; planning notes never are. */
  predicate Justified(c: Check, nSample: real, arpu: real, limit: int, s: Signals, model: Model, pow: Pow) {
    BreakEvenJustified(c, nSample, arpu, limit, model, pow) || CostJustified(c, s)
  }

  /** The search range the health check scans: at least 20000 clients. */
  function SearchMax(model: Model): real {
    Max(20000.0, model.nMax)
  }

  lemma {:induction false} TotalDeductionConcat(a: seq<Check>, b: seq<Check>)
    ensures TotalDeduction(a + b) == TotalDeduction(a) + TotalDeduction(b)
  {
    if |a| == 0 {
      assert a + b == b;
    } else {
      assert (a + b)[1..] == a[1..] + b;
      TotalDeductionConcat(a[1..], b);
    }
  }

  /** The break-even check: no break-even in range, or fewer clients than the first break-even count. */
  method BreakEvenCheck(nSample: real, arpu: real, model: Model, pow: Pow) returns (failed: seq<Check>)
    requires arpu > 0.0
    ensures TotalDeduction(failed) <= 35 && |failed| <= 1
    ensures forall c :: c in failed ==> BreakEvenJustified(c, nSample, arpu, Limit(SearchMax(model)), model, pow)
    ensures NeverBreaksEven(arpu, Limit(SearchMax(model)), model, pow) ==> NoBreakEven in failed
    ensures forall k :: IsFirstBreakEven(arpu, Limit(SearchMax(model)), k, model, pow) && nSample < k as real ==>
      BelowBreakEven(Round(nSample), k) in failed
  {
    var economics := ScanEconomicRange(Some(arpu), SearchMax(model), model, pow);
    var beN := economics.breakEvenN;
    ghost var limit := Limit(SearchMax(model));
    failed := [];
    if beN.None? {
      failed := [NoBreakEven];
    } else if nSample < beN.value as real {
      failed := [BelowBreakEven(Round(nSample), beN.value)];
    }
    assert beN.Some? ==> !NeverBreaksEven(arpu, limit, model, pow);
    forall k | IsFirstBreakEven(arpu, limit, k, model, pow)
      ensures beN == Some(k)
    {
      if beN.Some? {
        assert !(beN.value < k) && !(k < beN.value);
      }
    }
  }

  /** The cost checks: CCER below 1 or below the 3x benchmark, non-positive margin, commitment gap above 15%. */
  method CostChecks(s: Signals) returns (failed: seq<Check>)
    ensures TotalDeduction(failed) <= 55 && InPushOrder(failed)
    ensures forall c :: c in failed ==> CostJustified(c, s)
    ensures s.ccer.Some? && s.ccer.value < 1.0 ==> CcerBelowOne(s.ccer.value) in failed
    ensures s.ccer.Some? && 1.0 <= s.ccer.value < 3.0 ==> CcerBelowBenchmark(s.ccer.value) in failed
    ensures s.contributionMargin <= 0.0 ==> NegativeMargin(s.contributionMargin) in failed
    ensures s.cudSaveGapPct > 0.15 ==> CommitmentGap(s.cudSaveGapPct) in failed
  {
    failed := [];
    if s.ccer.Some? && s.ccer.value < 1.0 {
      failed := failed + [CcerBelowOne(s.ccer.value)];
    } else if s.ccer.Some? && s.ccer.value < 3.0 {
      failed := failed + [CcerBelowBenchmark(s.ccer.value)];
    }
    var ccerFailed := failed;
    if s.contributionMargin <= 0.0 {
      failed := failed + [NegativeMargin(s.contributionMargin)];
    }
    var marginFailed := failed[|ccerFailed|..];
    assert failed == ccerFailed + marginFailed;
    if s.cudSaveGapPct > 0.15 {
      failed := failed + [CommitmentGap(s.cudSaveGapPct)];
    }
    var gapFailed := failed[|ccerFailed| + |marginFailed|..];
    CostPushesOrdered(s, ccerFailed, marginFailed, gapFailed);
    CostPushesReported(s, ccerFailed, marginFailed, gapFailed);
    assert failed == ccerFailed + marginFailed + gapFailed;
  }

  /** The three pushes of the cost checks, as lists of at most one check each. */
  predicate CostPushShapes(s: Signals, ccerFailed: seq<Check>, marginFailed: seq<Check>, gapFailed: seq<Check>) {
    && ccerFailed == (if s.ccer.Some? && s.ccer.value < 1.0 then [CcerBelowOne(s.ccer.value)]
                      else if s.ccer.Some? && s.ccer.value < 3.0 then [CcerBelowBenchmark(s.ccer.value)] else [])
    && marginFailed == (if s.contributionMargin <= 0.0 then [NegativeMargin(s.contributionMargin)] else [])
    && gapFailed == (if s.cudSaveGapPct > 0.15 then [CommitmentGap(s.cudSaveGapPct)] else [])
  }

  /** The pushes deduct at most 55 points and stay in push order. */
  lemma CostPushesOrdered(s: Signals, ccerFailed: seq<Check>, marginFailed: seq<Check>, gapFailed: seq<Check>)
    requires CostPushShapes(s, ccerFailed, marginFailed, gapFailed)
    ensures TotalDeduction(ccerFailed + marginFailed + gapFailed) <= 55
    ensures InPushOrder(ccerFailed + marginFailed + gapFailed)
  {
    assert TotalDeduction(ccerFailed) <= 30 by {
      if ccerFailed != [] { assert ccerFailed[1..] == []; }
    }
    assert TotalDeduction(marginFailed) <= 20 by {
      if marginFailed != [] { assert marginFailed[1..] == []; }
    }
    assert TotalDeduction(gapFailed) <= 5 by {
      if gapFailed != [] { assert gapFailed[1..] == []; }
    }
    TotalDeductionConcat(ccerFailed, marginFailed);
    TotalDeductionConcat(ccerFailed + marginFailed, gapFailed);
    assert forall c :: c in ccerFailed ==> Stage(c) == 1;
    assert forall c :: c in marginFailed ==> Stage(c) == 2;
    assert forall c :: c in gapFailed ==> Stage(c) == 3;
    ConcatInOrder(ccerFailed, marginFailed, 2);
    assert forall c :: c in ccerFailed + marginFailed ==> c in ccerFailed || c in marginFailed;
    ConcatInOrder(ccerFailed + marginFailed, gapFailed, 3);
  }

  /** The pushes report exactly the failing cost conditions. */
  lemma CostPushesReported(s: Signals, ccerFailed: seq<Check>, marginFailed: seq<Check>, gapFailed: seq<Check>)
    requires CostPushShapes(s, ccerFailed, marginFailed, gapFailed)
    ensures var failed := ccerFailed + marginFailed + gapFailed;
      && (forall c :: c in failed ==> CostJustified(c, s))
      && (s.ccer.Some? && s.ccer.value < 1.0 ==> CcerBelowOne(s.ccer.value) in failed)
      && (s.ccer.Some? && 1.0 <= s.ccer.value < 3.0 ==> CcerBelowBenchmark(s.ccer.value) in failed)
      && (s.contributionMargin <= 0.0 ==> NegativeMargin(s.contributionMargin) in failed)
      && (s.cudSaveGapPct > 0.15 ==> CommitmentGap(s.cudSaveGapPct) in failed)
  {
    var failed := ccerFailed + marginFailed + gapFailed;
    assert forall c :: c in ccerFailed ==> CostJustified(c, s);
    assert forall c :: c in marginFailed ==> CostJustified(c, s);
    assert forall c :: c in gapFailed ==> CostJustified(c, s);
    assert forall c :: c in failed ==> c in ccerFailed || c in marginFailed || c in gapFailed;
  }

  /** Pushing a check of a later stage keeps the list in push order. */
  lemma PushInOrder(checks: seq<Check>, c: Check)
    requires InPushOrder(checks)
    requires forall d :: d in checks ==> Stage(d) < Stage(c)
    ensures InPushOrder(checks + [c])
  {
    ConcatInOrder(checks, [c], Stage(c));
  }

  /** Two lists in push order, every stage of the first below every stage of the second, concatenate in push order. */
  lemma {:induction false} ConcatInOrder(a: seq<Check>, b: seq<Check>, k: nat)
    requires InPushOrder(a) && InPushOrder(b)
    requires forall x :: x in a ==> Stage(x) < k
    requires forall y :: y in b ==> k <= Stage(y)
    ensures InPushOrder(a + b)
  {
    if |a| == 0 {
      assert a + b == b;
    } else {
      assert (a + b)[1..] == a[1..] + b;
      assert forall x :: x in a[1..] ==> x in a;
      ConcatInOrder(a[1..], b, k);
      if |a| == 1 && |b| > 0 {
        assert (a + b)[1] == b[0] && b[0] in b && a[0] in a;
      } else if |a| > 1 {
        assert (a + b)[1] == a[1];
      }
    }
  }

  /**
   * The checks reported for the scoring part of `computeHealth`: in push
   * order (at most one per stage), each one justified by the signals, and
   * every failing condition reported.
   */
  predicate ChecksReport(failed: seq<Check>, nSample: real, arpu: real, s: Signals, model: Model, pow: Pow) {
    var limit := Limit(SearchMax(model));
    && InPushOrder(failed)
    && (forall c :: c in failed ==> Justified(c, nSample, arpu, limit, s, model, pow))
    && (NeverBreaksEven(arpu, limit, model, pow) ==> NoBreakEven in failed)
    && (forall k :: 1 <= k <= limit && IsFirstBreakEven(arpu, limit, k, model, pow) && nSample < k as real ==>
          BelowBreakEven(Round(nSample), k) in failed)
    && (s.ccer.Some? && s.ccer.value < 1.0 ==> CcerBelowOne(s.ccer.value) in failed)
    && (s.ccer.Some? && 1.0 <= s.ccer.value < 3.0 ==> CcerBelowBenchmark(s.ccer.value) in failed)
    && (s.contributionMargin <= 0.0 ==> NegativeMargin(s.contributionMargin) in failed)
    && (s.cudSaveGapPct > 0.15 ==> CommitmentGap(s.cudSaveGapPct) in failed)
  }

  /**
   * The scoring part of `computeHealth`: break-even, CCER, contribution
   * margin and commitment gap, each deducting its fixed points from 100.
   */
  method ScoringChecks(nSample: real, arpu: real, model: Model, pow: Pow) returns (s: Signals, score: int, failed: seq<Check>)
    requires nSample > 0.0 && arpu > 0.0
    ensures s == HealthSignals(nSample, arpu, model, pow)
    ensures score == 100 - TotalDeduction(failed) && 10 <= score <= 100
    ensures ChecksReport(failed, nSample, arpu, s, model, pow)
  {
    s := HealthSignals(nSample, arpu, model, pow);
    var breakEvenFailed := BreakEvenCheck(nSample, arpu, model, pow);
    var costFailed := CostChecks(s);
    failed := breakEvenFailed + costFailed;
    TotalDeductionConcat(breakEvenFailed, costFailed);
    assert forall c :: c in costFailed ==> Stage(c) >= 1;
    assert forall c :: c in breakEvenFailed ==> Stage(c) == 0;
    ConcatInOrder(breakEvenFailed, costFailed, 1);
    score := 100 - TotalDeduction(failed);
  }

  datatype Zone = Awaiting | Red | Yellow | Green

  datatype HealthReport = HealthReport(zone: Zone, score: Option<int>, failedChecks: seq<Check>)

  /** Zone thresholds: red below 40, yellow below 70, green otherwise. */
  function ZoneOf(score: int): (z: Zone)
    ensures z != Awaiting
    ensures z == Red <==> score < 40
    ensures z == Yellow <==> 40 <= score < 70
    ensures z == Green <==> score >= 70
  {
    if score < 40 then Red else if score < 70 then Yellow else Green
  }

  /** The checks behind the score: the reported ones without the trailing planning note of a planning mode. */
  function ScoredChecks(failed: seq<Check>, arpuMode: ArpuMode): seq<Check> {
    if (arpuMode == StartupPrice || arpuMode == StartupClients) && |failed| > 0 then failed[..|failed| - 1] else failed
  }

  /**
   * The meaning of a `computeHealth` report: awaiting (no score, no checks)
   * exactly without infrastructure cost or a positive ARPU; otherwise the
   * score is 100 minus the deductions of the reported checks, its zone
   * follows the thresholds, the scored checks are exactly those the signals
   * call for, in push order, and the planning modes add their note last.
   */
  predicate HealthMeaning(h: HealthReport, ci: CanonicalInput, model: Model, effectiveARPU: Option<real>,
                          arpuMode: ArpuMode, pow: Pow) {
    && (h.score.None? <==> h.zone == Awaiting)
    && (h.zone == Awaiting <==> ci.infraTotal.None? || ArpuUsed(effectiveARPU, ci.ARPU).None?)
    && (h.zone == Awaiting ==> h.failedChecks == [])
    && InPushOrder(h.failedChecks)
    && (h.score.Some? ==>
          && h.score.value == 100 - TotalDeduction(h.failedChecks)
          && 10 <= h.score.value <= 100
          && h.zone == ZoneOf(h.score.value))
    && (h.score.Some? ==>
          var nSample := ReferenceClients(ci.nRef);
          var arpu := ArpuUsed(effectiveARPU, ci.ARPU).value;
          ChecksReport(ScoredChecks(h.failedChecks, arpuMode), nSample, arpu, HealthSignals(nSample, arpu, model, pow), model, pow))
    // planning notes come last and only in planning modes
    && (PlanningFromPrice in h.failedChecks <==> h.score.Some? && arpuMode == StartupPrice)
    && (PlanningFromClients in h.failedChecks <==> h.score.Some? && arpuMode == StartupClients)
    && (h.score.Some? && arpuMode == StartupPrice ==> h.failedChecks[|h.failedChecks| - 1] == PlanningFromPrice)
    && (h.score.Some? && arpuMode == StartupClients ==> h.failedChecks[|h.failedChecks| - 1] == PlanningFromClients)
  }

  /**
   * `computeHealth`: awaiting without infrastructure cost or a positive ARPU;
   * otherwise the clamped score, its zone, and a trailing planning note in
   * the two planning ARPU modes.
   */
  method ComputeHealth(ci: CanonicalInput, model: Model, effectiveARPU: Option<real>, arpuMode: ArpuMode, pow: Pow)
    returns (h: HealthReport)
    ensures HealthMeaning(h, ci, model, effectiveARPU, arpuMode, pow)
  {
    var nSample := ReferenceClients(ci.nRef);
    var arpuUsed := ArpuUsed(effectiveARPU, ci.ARPU);
    if ci.infraTotal.None? || arpuUsed.None? {
      return HealthReport(Awaiting, None, []);
    }
    var s, score, failed := ScoringChecks(nSample, arpuUsed.value, model, pow);
    // the deductions total at most 90, so the clamp into [0, 100] leaves the score as it is
    score := if score < 0 then 0 else if score > 100 then 100 else score;
    var zone := ZoneOf(score);

    assert forall c :: c in failed ==> Stage(c) < 4;
    PlanningNoteAppended(failed, arpuMode);
    h := HealthReport(zone, Some(score), WithPlanningNote(failed, arpuMode));
  }

  /** The reported checks: the scored ones, then the planning note of a planning mode. */
  function WithPlanningNote(scored: seq<Check>, arpuMode: ArpuMode): seq<Check> {
    if arpuMode == StartupPrice then scored + [PlanningFromPrice]
    else if arpuMode == StartupClients then scored + [PlanningFromClients]
    else scored
  }

  /** The planning note keeps the push order and the score, and comes last. */
  lemma PlanningNoteAppended(scored: seq<Check>, arpuMode: ArpuMode)
    requires InPushOrder(scored)
    requires forall c :: c in scored ==> Stage(c) < 4
    ensures var f := WithPlanningNote(scored, arpuMode);
      && InPushOrder(f)
      && TotalDeduction(f) == TotalDeduction(scored)
      && ScoredChecks(f, arpuMode) == scored
      && (PlanningFromPrice in f <==> arpuMode == StartupPrice)
      && (PlanningFromClients in f <==> arpuMode == StartupClients)
      && (arpuMode == StartupPrice ==> f[|f| - 1] == PlanningFromPrice)
      && (arpuMode == StartupClients ==> f[|f| - 1] == PlanningFromClients)
  {
    if arpuMode == StartupPrice {
      TotalDeductionConcat(scored, [PlanningFromPrice]);
      PushInOrder(scored, PlanningFromPrice);
      assert (scored + [PlanningFromPrice])[..|scored|] == scored;
    } else if arpuMode == StartupClients {
      TotalDeductionConcat(scored, [PlanningFromClients]);
      PushInOrder(scored, PlanningFromClients);
      assert (scored + [PlanningFromClients])[..|scored|] == scored;
    }
  }
}
