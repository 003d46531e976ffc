/**
 * Recommendation engine (server/finops-core.js:54-92, 804-946): a fixed
 * catalog plus model-driven strategic items, each given a category,
 * filtered by risk zone, provider and category, then stably ranked by
 * priority.
 */
module Recommendations {
  import opened Wrappers
  import opened JsValues
  import opened Canonicalizer
  import opened CostModel
  import opened Scanner
  import opened Health

  /**
   * A recommendation. `category` is present only on strategic items; the
   * numbers a strategic text shows are kept in `figures`, and the text holds
   * `{k}` where figure k is printed (number formatting is not modelled).
   */
  datatype Rec = Rec(
    text: Blurb,
    category: Option<string>,
    providers: seq<string>,
    zones: seq<string>,
    priority: Priority,
    figures: seq<real>)

  /** The three priorities the catalog and the strategic items use. */
  datatype Priority = High | Medium | Low

  /**
   * The text of a recommendation, by identifier: the catalog entries in
   * catalog order, then the four strategic items.
   */
  datatype Blurb =
    | BelowBreakEvenNotice | CcerBelowBenchmarkNotice | NegativeMarginNotice | CommitmentsNotApplied
    | CostAllocationTagging | CostForecasting | AwsSavingsPlans | AwsRightSizing
    | AwsSpot | AwsAnomalyDetection | S3IntelligentTiering | AzureReservations
    | AzureAdvisor | AzureBudgetAlerts | AzureSpotVms | GcpCommitments
    | GcpSustainedUse | GcpRecommender | GcpBudgetAlerts | BigQueryCostControls
    | OciUniversalCredits | OciAlwaysFree | IbmReservedServers | IbmSustainability
    | AlibabaSubscription | HuaweiReservations | MultiCloudPlatform | EgressControl
    | RaiseArpu | FunnelAcceleration | RetentionPlaybook | BreakEvenGap

  /** The title of a text. */
  function Title(b: Blurb): string {
    match b
    case BelowBreakEvenNotice => "You are below break-even"
    case CcerBelowBenchmarkNotice => "CCER below 3x"
    case NegativeMarginNotice => "Contribution margin is negative"
    case CommitmentsNotApplied => "CUDs/Savings Plans not fully applied"
    case CostAllocationTagging => "Implement FinOps cost allocation tagging"
    case CostForecasting => "Set up 12-month cost forecasting"
    case AwsSavingsPlans => "AWS Savings Plans coverage"
    case AwsRightSizing => "AWS right-sizing opportunities"
    case AwsSpot => "Use Spot for fault-tolerant workloads"
    case AwsAnomalyDetection => "Enable Cost Anomaly Detection"
    case S3IntelligentTiering => "S3 Intelligent-Tiering for cold data"
    case AzureReservations => "Azure Reservations + Hybrid Benefit"
    case AzureAdvisor => "Azure Advisor cost recommendations"
    case AzureBudgetAlerts => "Azure budget alerts and controls"
    case AzureSpotVms => "Azure Spot VMs for non-critical jobs"
    case GcpCommitments => "GCP Resource-based CUDs"
    case GcpSustainedUse => "Verify Sustained Use Discounts"
    case GcpRecommender => "Use GCP Recommender for idle resources"
    case GcpBudgetAlerts => "Set Billing Budget alerts with Pub/Sub"
    case BigQueryCostControls => "BigQuery query cost controls"
    case OciUniversalCredits => "OCI Universal Credits planning"
    case OciAlwaysFree => "OCI Always Free for dev/test"
    case IbmReservedServers => "IBM Reserved Virtual Servers"
    case IbmSustainability => "IBM sustainability + cost co-optimization"
    case AlibabaSubscription => "Alibaba subscription billing shift"
    case HuaweiReservations => "Huawei ECS Reservations"
    case MultiCloudPlatform => "Adopt unified multi-cloud FinOps platform"
    case EgressControl => "Control inter-region / inter-cloud egress"
    case RaiseArpu => "Raise realized ARPU above cost floor"
    case FunnelAcceleration => "Marketing + funnel acceleration toward efficient scale"
    case RetentionPlaybook => "CRM retention and expansion revenue playbook"
    case BreakEvenGap => "Close break-even client gap with GTM execution"
  }

  /** The description of a text. */
  function Description(b: Blurb): string {
    match b
    case BelowBreakEvenNotice => "Current client volume is below the minimum viable threshold; fixed and variable costs are not yet recovered."
    case CcerBelowBenchmarkNotice => "Cloud Cost Efficiency Ratio is below FinOps benchmark. Revenue generated per euro of cloud spend is under target."
    case NegativeMarginNotice => "VCPU is equal to or higher than ARPU. Every incremental client currently destroys value."
    case CommitmentsNotApplied => "Discount gap is still material versus committed pricing options. Commitment strategy is likely under-utilized."
    case CostAllocationTagging => "Without consistent tags, accountability and optimization loops remain weak across teams."
    case CostForecasting => "Proactive forecasting improves commitment timing, budget confidence, and board-level planning."
    case AwsSavingsPlans => "Compute Savings Plans can reduce eligible compute spend significantly when baseline usage is stable."
    case AwsRightSizing => "Idle and oversized resources create avoidable waste in EC2, EBS, and managed services."
    case AwsSpot => "Spot capacity can materially reduce non-critical compute costs for resilient jobs."
    case AwsAnomalyDetection => "Unexpected spikes should be detected rapidly to reduce financial blast radius."
    case S3IntelligentTiering => "Automatically shifting infrequently accessed objects reduces storage spend with minimal effort."
    case AzureReservations => "Reserved capacity and license benefits can materially reduce long-running VM/database costs."
    case AzureAdvisor => "Advisor identifies right-size, idle shutdown, and architecture-level cost opportunities."
    case AzureBudgetAlerts => "Budget and anomaly alerting strengthens accountability before overruns become systemic."
    case AzureSpotVms => "Spot VMs reduce compute spend for interruption-tolerant processing."
    case GcpCommitments => "Resource-based commitments can reduce sustained baseline compute spend on eligible workloads."
    case GcpSustainedUse => "Check whether workloads are reaching expected utilization to realize automatic discount benefits."
    case GcpRecommender => "Idle resources continue to consume spend without revenue contribution."
    case GcpBudgetAlerts => "Automated budget threshold events help trigger operational response workflows quickly."
    case BigQueryCostControls => "Query cost can drift quickly without governance on scan bytes and query patterns."
    case OciUniversalCredits => "Universal Credits can improve commitment flexibility when workloads shift across OCI services."
    case OciAlwaysFree => "Move suitable non-production workloads to Always Free resources where practical."
    case IbmReservedServers => "Long-running workloads should be shifted to reservation models for lower unit costs."
    case IbmSustainability => "Joint carbon and cost intelligence can identify high-impact remediation opportunities."
    case AlibabaSubscription => "Subscription billing can materially reduce compute costs versus pay-as-you-go baselines."
    case HuaweiReservations => "Reservation strategies reduce long-run compute cost where workloads are predictable."
    case MultiCloudPlatform => "Cross-cloud visibility and unit economics governance require a single cost operating model."
    case EgressControl => "Network egress charges often become hidden margin erosion drivers in multi-cloud topologies."
    case RaiseArpu => "Current ARPU ({0} per client) is below the model floor ({1} per client near n~{2})."
    case FunnelAcceleration => "Client volume still matters: unit cost bottoms near n~{0}. Demand generation should align with this operating band."
    case RetentionPlaybook => "When cost cuts are near limit, expansion and retention become the fastest margin levers."
    case BreakEvenGap => "You are {0} clients below break-even volume ({1})."
  }

  /** The suggested action of a text. */
  function Action(b: Blurb): string {
    match b
    case BelowBreakEvenNotice => "Review pricing page and sales funnel conversion. Prioritize moving n above N_min within the next planning cycle."
    case CcerBelowBenchmarkNotice => "Isolate top cost drivers and enforce unit economics guardrails per service."
    case NegativeMarginNotice => "Increase package price floor or reduce per-client infra usage before scaling customer acquisition."
    case CommitmentsNotApplied => "Review 12-month steady-state usage and map eligible workloads to commitment instruments."
    case CostAllocationTagging => "Enforce mandatory tags for owner, environment, product, and cost-center in IaC and policy checks."
    case CostForecasting => "Build monthly forecast scenarios (base/growth/stress) and review variance at each month close."
    case AwsSavingsPlans => "AWS Console -> Billing and Cost Management -> Savings Plans -> Recommendations."
    case AwsRightSizing => "AWS Cost Explorer -> Rightsizing Recommendations; prioritize top monthly impact accounts."
    case AwsSpot => "EC2 Auto Scaling Groups -> Mixed Instances Policy with Spot allocation strategies."
    case AwsAnomalyDetection => "AWS Console -> Cost Management -> Cost Anomaly Detection -> Create monitor and alerts."
    case S3IntelligentTiering => "S3 Bucket -> Management -> Lifecycle rules and Intelligent-Tiering transition policy."
    case AzureReservations => "Azure Portal -> Cost Management + Billing -> Reservations -> Purchase recommendations."
    case AzureAdvisor => "Azure Portal -> Advisor -> Cost tab; export recommendations into remediation backlog."
    case AzureBudgetAlerts => "Azure Portal -> Cost Management -> Budgets -> Create budget with action groups."
    case AzureSpotVms => "Azure Portal -> Virtual Machines -> Spot instance deployment for candidate workloads."
    case GcpCommitments => "Google Cloud Console -> Billing -> Committed Use Discounts -> Purchase commitments."
    case GcpSustainedUse => "GCP Billing export -> BigQuery; validate sustained usage discount effectiveness by SKU."
    case GcpRecommender => "GCP Console -> Recommender -> Cost recommendations and cleanup actions."
    case GcpBudgetAlerts => "GCP Console -> Billing -> Budgets & alerts -> Enable Pub/Sub notifications."
    case BigQueryCostControls => "BigQuery -> Reservations/Quotas + max bytes billed + scheduled query audits."
    case OciUniversalCredits => "OCI Console -> Billing and Cost Management -> Usage and Credit Allocation review."
    case OciAlwaysFree => "OCI Console -> Compute/Storage provisioning templates mapped to Always Free limits."
    case IbmReservedServers => "IBM Cloud Console -> Billing and Usage -> Reservation planning for persistent workloads."
    case IbmSustainability => "IBM Environmental Intelligence Suite + cost reports for optimization prioritization."
    case AlibabaSubscription => "Alibaba Console -> Billing -> Resource Plans / Subscription migration candidates."
    case HuaweiReservations => "Huawei Cloud Console -> Billing Center -> Reserved Instances for ECS fleet."
    case MultiCloudPlatform => "Integrate billing exports into a common platform (CloudHealth/OpenCost/warehouse model)."
    case EgressControl => "Build monthly egress map by service path; redesign data flows to reduce charge-heavy hops."
    case RaiseArpu => "Improve realized price by at least {3} per client ({4}%) via packaging tiers, add-ons, annual commitment discounts, or selective fee increases."
    case FunnelAcceleration => "Run a 90-day growth motion (paid + partner + referral), improve MQL->SQL->Win conversion in CRM, and review CAC payback against the ARPU gap weekly."
    case RetentionPlaybook => "Launch upsell/cross-sell journeys, renewal controls, and churn-prevention triggers to add at least {0} per client in net revenue over the next cycle."
    case BreakEvenGap => "Prioritize pipeline quality, onboarding speed, and CRM conversion stages to move qualified demand into paying clients faster while protecting margin."
  }

  /** RECOMMENDATIONS. */
  const Catalog: seq<Rec> := [
    Rec(BelowBreakEvenNotice, None, [], ["red"], High, []),
    Rec(CcerBelowBenchmarkNotice, None, [], ["red", "yellow"], High, []),
    Rec(NegativeMarginNotice, None, [], ["red"], High, []),
    Rec(CommitmentsNotApplied, None, [], ["green", "yellow", "red"], Medium, []),
    Rec(CostAllocationTagging, None, [], ["green"], Low, []),
    Rec(CostForecasting, None, [], ["green"], Low, []),
    Rec(AwsSavingsPlans, None, ["aws"], ["green", "yellow", "red"], Medium, []),
    Rec(AwsRightSizing, None, ["aws"], ["yellow", "red"], Medium, []),
    Rec(AwsSpot, None, ["aws"], ["yellow", "red"], Medium, []),
    Rec(AwsAnomalyDetection, None, ["aws"], ["green", "yellow", "red"], High, []),
    Rec(S3IntelligentTiering, None, ["aws"], ["green"], Low, []),
    Rec(AzureReservations, None, ["azure"], ["yellow", "red"], Medium, []),
    Rec(AzureAdvisor, None, ["azure"], ["yellow", "red"], Medium, []),
    Rec(AzureBudgetAlerts, None, ["azure"], ["green", "yellow", "red"], High, []),
    Rec(AzureSpotVms, None, ["azure"], ["yellow", "red"], Medium, []),
    Rec(GcpCommitments, None, ["gcp"], ["green", "yellow", "red"], Medium, []),
    Rec(GcpSustainedUse, None, ["gcp"], ["green", "yellow"], Low, []),
    Rec(GcpRecommender, None, ["gcp"], ["yellow", "red"], High, []),
    Rec(GcpBudgetAlerts, None, ["gcp"], ["green", "yellow", "red"], High, []),
    Rec(BigQueryCostControls, None, ["gcp"], ["yellow", "red"], Medium, []),
    Rec(OciUniversalCredits, None, ["oci"], ["green", "yellow", "red"], Medium, []),
    Rec(OciAlwaysFree, None, ["oci"], ["green"], Low, []),
    Rec(IbmReservedServers, None, ["ibm"], ["yellow", "red"], Medium, []),
    Rec(IbmSustainability, None, ["ibm"], ["green"], Low, []),
    Rec(AlibabaSubscription, None, ["alibaba"], ["yellow", "red"], Medium, []),
    Rec(HuaweiReservations, None, ["huawei"], ["yellow", "red"], Medium, []),
    Rec(MultiCloudPlatform, None, ["multi"], ["green", "yellow", "red"], High, []),
    Rec(EgressControl, None, ["multi"], ["green", "yellow", "red"], Medium, [])
  ]

  /** The zones that receive recommendations. */
  const RiskZones: seq<string> := ["green", "yellow", "red"]

  /** RECOMMENDATION_CATEGORIES. */
  const Categories: seq<string> := ["all", "infrastructure", "pricing", "marketing", "crm", "governance"]

  /** The zone key a health zone reports. */
  function ZoneKey(z: Zone): (k: string)
    ensures k in RiskZones <==> z != Awaiting
  {
    match z
    case Awaiting => "awaiting"
    case Red => "red"
    case Yellow => "yellow"
    case Green => "green"
  }

  // ---------------------------------------------------------------------------
  // priorityWeight and category inference
  // ---------------------------------------------------------------------------

  /** `priorityWeight`: high before medium before low. */
  function PriorityWeight(priority: Priority): (w: nat)
    ensures w <= 2
    ensures w == 0 <==> priority == High
    ensures w == 1 <==> priority == Medium
  {
    match priority
    case High => 0
    case Medium => 1
    case Low => 2
  }

  /** `normalizeRecommendationCategory` on a string: a known category, else "all". */
  function CategoryOf(s: string): (c: string)
    ensures c in Categories
    ensures s in Categories ==> c == s
    ensures s !in Categories ==> c == "all"
  {
    if s in Categories then s else "all"
  }

  /** `normalizeRecommendationCategory`: anything but a known category string is "all". */
  function NormalizeRecommendationCategory(v: Raw): (c: string)
    ensures c in Categories
    ensures v.Str? && v.s in Categories ==> c == v.s
    ensures !(v.Str? && v.s in Categories) ==> c == "all"
  {
    if v.Str? then CategoryOf(v.s) else "all"
  }

  /** `needle` occurs in `hay` at position i. */
  predicate OccursAt(hay: string, needle: string, i: int) {
    0 <= i && i + |needle| <= |hay| && hay[i..i + |needle|] == needle
  }

  /** Substring search, as the literal alternations of the inference patterns test it. */
  function Contains(hay: string, needle: string): (b: bool)
    ensures b <==> exists i :: OccursAt(hay, needle, i)
  {
    if needle <= hay then
      assert OccursAt(hay, needle, 0);
      true
    else if |hay| == 0 then
      assert forall i :: !OccursAt(hay, needle, i);
      false
    else
      var rest := Contains(hay[1..], needle);
      assert forall i :: OccursAt(hay[1..], needle, i) <==> OccursAt(hay, needle, i + 1) by {
        forall i ensures OccursAt(hay[1..], needle, i) <==> OccursAt(hay, needle, i + 1) {
          if 0 <= i && i + |needle| <= |hay[1..]| {
            assert hay[1..][i..i + |needle|] == hay[i + 1..i + 1 + |needle|];
          }
        }
      }
      assert !OccursAt(hay, needle, 0);
      assert (exists i :: OccursAt(hay, needle, i)) ==> exists i :: OccursAt(hay[1..], needle, i) by {
        if exists i :: OccursAt(hay, needle, i) {
          var i :| OccursAt(hay, needle, i);
          assert i != 0;
          assert OccursAt(hay[1..], needle, i - 1);
        }
      }
      rest
  }

  /** Some word of the alternation occurs in the text. */
  function MatchesAny(hay: string, words: seq<string>): (b: bool)
    ensures b <==> exists k :: 0 <= k < |words| && Contains(hay, words[k])
  {
    if |words| == 0 then false
    else if Contains(hay, words[0]) then true
    else
      var rest := MatchesAny(hay, words[1..]);
      assert forall k :: 1 <= k < |words| ==> words[k] == words[1..][k - 1];
      assert rest ==> exists k :: 0 <= k < |words| && Contains(hay, words[k]) by {
        if rest {
          var k :| 0 <= k < |words[1..]| && Contains(hay, words[1..][k]);
          assert Contains(hay, words[k + 1]);
        }
      }
      rest
  }

  /** One inference rule: the category and the words of its pattern. */
  datatype Rule = Rule(category: string, words: seq<string>)

  /** The ordered inference rules; the first that matches wins. */
  const CategoryRules: seq<Rule> := [
    Rule("crm", ["crm", "churn", "renewal", "upsell", "cross-sell", "retention"]),
    Rule("pricing", ["pricing", "price floor", "arpu", "package", "fee increase", "realized price"]),
    Rule("marketing", ["marketing", "funnel", "mql", "sql", "cac", "demand generation", "acquisition", "sales motion"]),
    Rule("governance", ["tagging", "forecast", "budget", "anomaly", "governance", "allocation", "guardrail", "policy"])
  ]

  /** The category of the first rule whose pattern matches, if any. */
  function FirstMatch(rules: seq<Rule>, hay: string): (r: Option<string>)
    ensures r.Some? <==> exists k :: 0 <= k < |rules| && MatchesAny(hay, rules[k].words)
  {
    if |rules| == 0 then None
    else if MatchesAny(hay, rules[0].words) then Some(rules[0].category)
    else
      var rest := FirstMatch(rules[1..], hay);
      assert forall k :: 1 <= k < |rules| ==> rules[k] == rules[1..][k - 1];
      assert rest.Some? ==> exists k :: 0 <= k < |rules| && MatchesAny(hay, rules[k].words) by {
        if rest.Some? {
          var k :| 0 <= k < |rules[1..]| && MatchesAny(hay, rules[1..][k].words);
          assert MatchesAny(hay, rules[k + 1].words);
        }
      }
      rest
  }

  /** The first-match semantics: the chosen rule matches and no earlier one does. */
  lemma {:induction false} FirstMatchIsFirst(rules: seq<Rule>, hay: string)
    ensures var r := FirstMatch(rules, hay);
      r.Some? ==> exists k :: (0 <= k < |rules| && rules[k].category == r.value &&
        MatchesAny(hay, rules[k].words) && forall j :: 0 <= j < k ==> !MatchesAny(hay, rules[j].words))
  {
    if |rules| > 0 && !MatchesAny(hay, rules[0].words) {
      var r := FirstMatch(rules[1..], hay);
      FirstMatchIsFirst(rules[1..], hay);
      if r.Some? {
        var k :| 0 <= k < |rules[1..]| && rules[1..][k].category == r.value &&
          MatchesAny(hay, rules[1..][k].words) && forall j :: 0 <= j < k ==> !MatchesAny(hay, rules[1..][j].words);
        assert rules[k + 1] == rules[1..][k];
        forall j | 0 <= j < k + 1
          ensures !MatchesAny(hay, rules[j].words)
        {
          if j > 0 {
            assert rules[j] == rules[1..][j - 1];
          }
        }
      }
    } else if |rules| > 0 {
      assert rules[0].category == FirstMatch(rules, hay).value;
    }
  }

  /** The lower-cased text the patterns search: title, description and action joined by spaces. */
  function Haystack(rec: Rec): string {
    LowerAscii(Title(rec.text) + " " + Description(rec.text) + " " + Action(rec.text))
  }

  /**
   * `inferRecommendationCategory`: an explicit category wins (an unknown one
   * or "all" means infrastructure); otherwise the first matching rule, else
   * infrastructure.
   */
  function InferRecommendationCategory(rec: Rec): (c: string)
    ensures c in Categories && c != "all"
    ensures rec.category.Some? && CategoryOf(rec.category.value) != "all" ==> c == rec.category.value
    ensures rec.category.Some? && CategoryOf(rec.category.value) == "all" ==> c == "infrastructure"
    ensures rec.category.None? ==>
      (c == "infrastructure" <==> forall k :: 0 <= k < |CategoryRules| ==> !MatchesAny(Haystack(rec), CategoryRules[k].words))
    ensures rec.category.None? && c != "infrastructure" ==>
      exists k :: 0 <= k < |CategoryRules| && CategoryRules[k].category == c &&
        MatchesAny(Haystack(rec), CategoryRules[k].words) &&
        forall j :: 0 <= j < k ==> !MatchesAny(Haystack(rec), CategoryRules[j].words)
  {
    if rec.category.Some? then
      var explicit := CategoryOf(rec.category.value);
      if explicit == "all" then "infrastructure" else explicit
    else
      InferredByRules(Haystack(rec));
      FirstMatch(CategoryRules, Haystack(rec)).GetOr("infrastructure")
  }

  /** Rule inference yields a scored category other than "all": infrastructure exactly when no rule matches, else the first matching rule's. */
  lemma InferredByRules(hay: string)
    ensures var c := FirstMatch(CategoryRules, hay).GetOr("infrastructure");
      && c in Categories && c != "all"
      && (c == "infrastructure" <==> forall k :: 0 <= k < |CategoryRules| ==> !MatchesAny(hay, CategoryRules[k].words))
      && (c != "infrastructure" ==>
            exists k :: 0 <= k < |CategoryRules| && CategoryRules[k].category == c &&
              MatchesAny(hay, CategoryRules[k].words) &&
              forall j :: 0 <= j < k ==> !MatchesAny(hay, CategoryRules[j].words))
  {
    FirstMatchIsFirst(CategoryRules, hay);
    var r := FirstMatch(CategoryRules, hay);
    if r.Some? {
      var k :| 0 <= k < |CategoryRules| && CategoryRules[k].category == r.value;
      assert r.value in ["crm", "pricing", "marketing", "governance"] by {
        assert k == 0 || k == 1 || k == 2 || k == 3;
      }
    }
  }

  // ---------------------------------------------------------------------------
  // Strategic recommendations
  // ---------------------------------------------------------------------------

  /** The output of `buildRecommendationContext`. */
  datatype Context = Context(nSample: real, arpuUsed: Option<real>, beN: Option<int>, minCostN: int, minCostPerClient: real)

  /** A strategic item: no providers, only the current zone, an explicit category. */
  function Strategic(text: Blurb, category: string, zoneKey: string, priority: Priority, figures: seq<real>): (r: Rec)
    ensures r.text == text && r.category == Some(category) && r.providers == [] && r.zones == [zoneKey]
    ensures r.priority == priority && r.figures == figures
  {
    Rec(text, Some(category), [], [zoneKey], priority, figures)
  }

  /**
   * `buildStrategicRecommendations`: below the cost floor with no
   * break-even, three items (pricing, marketing, CRM); short of break-even,
   * one GTM item; otherwise none.
   */
  function BuildStrategicRecommendations(zoneKey: string, ctx: Context): (r: seq<Rec>)
    ensures zoneKey !in RiskZones || ctx.arpuUsed.None? ==> r == []
    ensures forall x :: x in r ==> x.zones == [zoneKey] && x.providers == [] && x.category.Some?
    ensures zoneKey in RiskZones && ctx.arpuUsed.Some? ==>
      var arpu := ctx.arpuUsed.value;
      var shortfall := ctx.minCostPerClient - arpu;
      && (ctx.beN.None? && shortfall > 0.0 ==>
           && |r| == 3
           && r[0].text == RaiseArpu && r[0].category == Some("pricing") && r[0].priority == High
           && r[0].figures == [arpu, ctx.minCostPerClient, ctx.minCostN as real, shortfall,
                               if arpu > 0.0 then (shortfall / arpu) * 100.0 else 0.0]
           && r[1].text == FunnelAcceleration && r[1].category == Some("marketing") && r[1].priority == Medium
           && r[1].figures == [ctx.minCostN as real]
           && r[2].text == RetentionPlaybook && r[2].category == Some("crm") && r[2].priority == High
           && r[2].figures == [shortfall])
      && (!(ctx.beN.None? && shortfall > 0.0) && ctx.beN.Some? && ctx.nSample < ctx.beN.value as real ==>
           && |r| == 1
           && r[0].text == BreakEvenGap && r[0].category == Some("marketing") && r[0].priority == High
           && r[0].figures == [Max(1.0, Round(ctx.beN.value as real - ctx.nSample) as real), ctx.beN.value as real])
      && (!(ctx.beN.None? && shortfall > 0.0) && !(ctx.beN.Some? && ctx.nSample < ctx.beN.value as real) ==> r == [])
  {
    if zoneKey !in RiskZones || ctx.arpuUsed.None? then []
    else
      var arpu := ctx.arpuUsed.value;
      var gap := Max(0.0, ctx.minCostPerClient - arpu);
      var upliftPct := if arpu > 0.0 then (gap / arpu) * 100.0 else 0.0;
      if ctx.beN.None? && gap > 0.0 then
        [ Strategic(RaiseArpu, "pricing", zoneKey, High, [arpu, ctx.minCostPerClient, ctx.minCostN as real, gap, upliftPct]),
          Strategic(FunnelAcceleration, "marketing", zoneKey, Medium, [ctx.minCostN as real]),
          Strategic(RetentionPlaybook, "crm", zoneKey, High, [gap]) ]
      else if ctx.beN.Some? && ctx.nSample < ctx.beN.value as real then
        [Strategic(BreakEvenGap, "marketing", zoneKey, High, [Max(1.0, Round(ctx.beN.value as real - ctx.nSample) as real), ctx.beN.value as real])]
      else []
  }

  /**
   * What `buildRecommendationContext` yields: the reference client count, the
   * ARPU in use, the first break-even count over at least 20000 clients (or
   * none when no count breaks even) and the first minimiser of the unit cost.
   */
  predicate ContextOf(ctx: Context, ci: CanonicalInput, model: Model, effectiveARPU: Option<real>, pow: Pow) {
    var limit := Limit(SearchMax(model));
    && ctx.nSample == ReferenceClients(ci.nRef)
    && ctx.arpuUsed == ArpuUsed(effectiveARPU, ci.ARPU)
    && (ctx.beN.Some? ==> ctx.arpuUsed.Some? && IsFirstBreakEven(ctx.arpuUsed.value, limit, ctx.beN.value, model, pow))
    && (ctx.beN.None? && ctx.arpuUsed.Some? ==> NeverBreaksEven(ctx.arpuUsed.value, limit, model, pow))
    && IsFirstMinimiser(limit, ctx.minCostN, model, pow)
    && ctx.minCostPerClient == UnitCost(ctx.minCostN, model, pow)
  }

  /** `buildRecommendationContext`: the context the inputs determine. */
  method BuildRecommendationContext(ci: CanonicalInput, model: Model, effectiveARPU: Option<real>, pow: Pow)
    returns (ctx: Context)
    ensures ContextOf(ctx, ci, model, effectiveARPU, pow)
  {
    var nSample := ReferenceClients(ci.nRef);
    var arpuUsed := ArpuUsed(effectiveARPU, ci.ARPU);
    var economics := ScanEconomicRange(arpuUsed, SearchMax(model), model, pow);
    ctx := Context(nSample, arpuUsed, economics.breakEvenN, economics.minUnitCostN, economics.minUnitCostPerClient);
  }

  /** The context is a function of the inputs: two contexts of the same inputs are equal. */
  lemma ContextDetermined(c1: Context, c2: Context, ci: CanonicalInput, model: Model, effectiveARPU: Option<real>, pow: Pow)
    requires ContextOf(c1, ci, model, effectiveARPU, pow) && ContextOf(c2, ci, model, effectiveARPU, pow)
    ensures c1 == c2
  {
  }

  // ---------------------------------------------------------------------------
  // Filtering and stable ranking
  // ---------------------------------------------------------------------------

  /** `.map((rec) => ({ ...rec, category: inferRecommendationCategory(rec) }))`. */
  function WithCategories(recs: seq<Rec>): (r: seq<Rec>)
    ensures |r| == |recs|
    ensures forall x :: x in r ==> x.category.Some?
    ensures forall i :: 0 <= i < |recs| ==> r[i] == recs[i].(category := Some(InferRecommendationCategory(recs[i])))
  {
    seq(|recs|, i requires 0 <= i < |recs| => recs[i].(category := Some(InferRecommendationCategory(recs[i]))))
  }

  /** The three filters: the zone, a shared provider (or none required), the category (or "all"). */
  predicate Admitted(rec: Rec, zoneKey: string, providers: seq<string>, categoryKey: string) {
    && zoneKey in rec.zones
    && (|rec.providers| == 0 || exists p :: p in providers && p in rec.providers)
    && (categoryKey == "all" || rec.category == Some(categoryKey))
  }

  function Filter(recs: seq<Rec>, zoneKey: string, providers: seq<string>, categoryKey: string): (r: seq<Rec>)
    ensures |r| <= |recs|
    ensures forall x :: x in r <==> x in recs && Admitted(x, zoneKey, providers, categoryKey)
  {
    if |recs| == 0 then []
    else
      assert forall x :: x in recs <==> x == recs[0] || x in recs[1..];
      (if Admitted(recs[0], zoneKey, providers, categoryKey) then [recs[0]] else []) +
      Filter(recs[1..], zoneKey, providers, categoryKey)
  }

  function Weight(rec: Rec): nat {
    PriorityWeight(rec.priority)
  }

  /** Insert after every element of no greater weight, so equal weights keep their order. */
  function Insert(x: Rec, sorted: seq<Rec>): seq<Rec> {
    if |sorted| == 0 then [x]
    else if Weight(sorted[0]) > Weight(x) then [x] + sorted
    else [sorted[0]] + Insert(x, sorted[1..])
  }

  /** The stable sort by priority weight, as insertion of each element in turn; a permutation of its input. */
  function SortByPriority(recs: seq<Rec>): (r: seq<Rec>)
    ensures multiset(r) == multiset(recs)
  {
    if |recs| == 0 then []
    else
      var prefix := recs[..|recs| - 1];
      InsertPermutes(recs[|recs| - 1], SortByPriority(prefix));
      assert recs == prefix + [recs[|recs| - 1]];
      Insert(recs[|recs| - 1], SortByPriority(prefix))
  }

  /** The elements of one weight, in input order: the reference definition of stability. */
  function Bucket(recs: seq<Rec>, w: nat): seq<Rec> {
    if |recs| == 0 then []
    else Bucket(recs[..|recs| - 1], w) + (if Weight(recs[|recs| - 1]) == w then [recs[|recs| - 1]] else [])
  }

  lemma {:induction false} BucketWeights(recs: seq<Rec>, w: nat)
    ensures forall x :: x in Bucket(recs, w) ==> Weight(x) == w
  {
    if |recs| > 0 {
      BucketWeights(recs[..|recs| - 1], w);
    }
  }

  /** Insertion adds exactly the inserted element. */
  lemma {:induction false} InsertPermutes(x: Rec, sorted: seq<Rec>)
    ensures multiset(Insert(x, sorted)) == multiset(sorted) + multiset{x}
  {
    if |sorted| > 0 && Weight(sorted[0]) <= Weight(x) {
      InsertPermutes(x, sorted[1..]);
      assert sorted == [sorted[0]] + sorted[1..];
    }
  }

  lemma {:induction false} InsertBetween(x: Rec, lower: seq<Rec>, upper: seq<Rec>)
    requires forall y :: y in lower ==> Weight(y) <= Weight(x)
    requires forall y :: y in upper ==> Weight(y) > Weight(x)
    ensures Insert(x, lower + upper) == lower + [x] + upper
  {
    if |lower| == 0 {
      assert lower + upper == upper;
      if |upper| > 0 {
        assert upper[0] in upper;
        assert Insert(x, upper) == [x] + upper;
      }
    } else {
      var rest := lower[1..];
      assert (lower + upper)[0] == lower[0];
      assert (lower + upper)[1..] == rest + upper;
      assert Insert(x, lower + upper) == [lower[0]] + Insert(x, rest + upper);
      assert forall y :: y in rest ==> y in lower;
      InsertBetween(x, rest, upper);
      assert lower == [lower[0]] + rest;
    }
  }

  /** Inserting into three weight-ordered buckets appends to the bucket of the element's weight. */
  lemma InsertIntoBuckets(x: Rec, b0: seq<Rec>, b1: seq<Rec>, b2: seq<Rec>)
    requires forall y :: y in b0 ==> Weight(y) == 0
    requires forall y :: y in b1 ==> Weight(y) == 1
    requires forall y :: y in b2 ==> Weight(y) == 2
    ensures Weight(x) == 0 ==> Insert(x, b0 + b1 + b2) == (b0 + [x]) + b1 + b2
    ensures Weight(x) == 1 ==> Insert(x, b0 + b1 + b2) == b0 + (b1 + [x]) + b2
    ensures Weight(x) == 2 ==> Insert(x, b0 + b1 + b2) == b0 + b1 + (b2 + [x])
  {
    if Weight(x) == 0 {
      InsertBetween(x, b0, b1 + b2);
      assert b0 + b1 + b2 == b0 + (b1 + b2);
      assert b0 + [x] + (b1 + b2) == (b0 + [x]) + b1 + b2;
    } else if Weight(x) == 1 {
      InsertBetween(x, b0 + b1, b2);
      assert b0 + b1 + [x] + b2 == b0 + (b1 + [x]) + b2;
    } else {
      InsertBetween(x, b0 + b1 + b2, []);
      assert b0 + b1 + b2 + [] == b0 + b1 + b2;
      assert b0 + b1 + b2 + [x] + [] == b0 + b1 + (b2 + [x]);
    }
  }

  /** The insertion sort lists the high bucket, then the medium, then the low, each in input order. */
  lemma {:induction false} SortIsBuckets(recs: seq<Rec>)
    ensures SortByPriority(recs) == Bucket(recs, 0) + Bucket(recs, 1) + Bucket(recs, 2)
  {
    if |recs| > 0 {
      var prefix := recs[..|recs| - 1];
      var x := recs[|recs| - 1];
      SortIsBuckets(prefix);
      BucketWeights(prefix, 0);
      BucketWeights(prefix, 1);
      BucketWeights(prefix, 2);
      var b0, b1, b2 := Bucket(prefix, 0), Bucket(prefix, 1), Bucket(prefix, 2);
      InsertIntoBuckets(x, b0, b1, b2);
      assert SortByPriority(recs) == Insert(x, b0 + b1 + b2);
      if Weight(x) == 0 {
        assert Bucket(recs, 0) == b0 + [x] && Bucket(recs, 1) == b1 && Bucket(recs, 2) == b2;
      } else if Weight(x) == 1 {
        assert Bucket(recs, 0) == b0 && Bucket(recs, 1) == b1 + [x] && Bucket(recs, 2) == b2;
      } else {
        assert Bucket(recs, 0) == b0 && Bucket(recs, 1) == b1 && Bucket(recs, 2) == b2 + [x];
      }
    }
  }

  /** Weights never decrease along the ranking. */
  predicate RankedByWeight(recs: seq<Rec>) {
    forall i, j :: 0 <= i < j < |recs| ==> Weight(recs[i]) <= Weight(recs[j])
  }

  lemma BucketsRanked(recs: seq<Rec>)
    ensures RankedByWeight(Bucket(recs, 0) + Bucket(recs, 1) + Bucket(recs, 2))
  {
    var b0, b1, b2 := Bucket(recs, 0), Bucket(recs, 1), Bucket(recs, 2);
    BucketWeights(recs, 0);
    BucketWeights(recs, 1);
    BucketWeights(recs, 2);
    var r := b0 + b1 + b2;
    forall i, j | 0 <= i < j < |r|
      ensures Weight(r[i]) <= Weight(r[j])
    {
      var wi := if i < |b0| then 0 else if i < |b0| + |b1| then 1 else 2;
      var wj := if j < |b0| then 0 else if j < |b0| + |b1| then 1 else 2;
      if i < |b0| { assert r[i] == b0[i] && b0[i] in b0; }
      else if i < |b0| + |b1| { assert r[i] == b1[i - |b0|] && b1[i - |b0|] in b1; }
      else { assert r[i] == b2[i - |b0| - |b1|] && b2[i - |b0| - |b1|] in b2; }
      if j < |b0| { assert r[j] == b0[j] && b0[j] in b0; }
      else if j < |b0| + |b1| { assert r[j] == b1[j - |b0|] && b1[j - |b0|] in b1; }
      else { assert r[j] == b2[j - |b0| - |b1|] && b2[j - |b0| - |b1|] in b2; }
    }
  }

  /**
   * The recommendations before projection: nothing outside a risk zone;
   * otherwise strategic items then the catalog, categorised, filtered and
   * stably ranked by priority.
   */
  function Ranked(zoneKey: string, providers: seq<string>, categoryKey: string, strategic: seq<Rec>): (r: seq<Rec>)
    ensures zoneKey !in RiskZones ==> r == []
    ensures forall x :: x in r ==> Admitted(x, zoneKey, providers, categoryKey) && x.category.Some?
    ensures RankedByWeight(r)
  {
    if zoneKey !in RiskZones then []
    else
      var admitted := Filter(WithCategories(strategic + Catalog), zoneKey, providers, categoryKey);
      SortIsBuckets(admitted);
      BucketsRanked(admitted);
      assert forall x :: x in SortByPriority(admitted) ==> x in multiset(admitted);
      SortByPriority(admitted)
  }

  /**
   * The ranking is a stable sort: a permutation of the admitted items that
   * lists the high, medium and low priorities each in input order.
   */
  lemma RankedIsStableSort(zoneKey: string, providers: seq<string>, categoryKey: string, strategic: seq<Rec>)
    requires zoneKey in RiskZones
    ensures var admitted := Filter(WithCategories(strategic + Catalog), zoneKey, providers, categoryKey);
      var r := Ranked(zoneKey, providers, categoryKey, strategic);
      && multiset(r) == multiset(admitted)
      && r == Bucket(admitted, 0) + Bucket(admitted, 1) + Bucket(admitted, 2)
  {
    var admitted := Filter(WithCategories(strategic + Catalog), zoneKey, providers, categoryKey);
    SortIsBuckets(admitted);
  }

  /** An item of the tool's output. */
  datatype Item = Item(title: string, priority: Priority, providers: seq<string>, category: string, desc: string, action: string,
                       figures: seq<real>)

  /** An output item: the texts of the recommendation, with the figures its description and action print. */
  function ToItem(rec: Rec): Item {
    Item(Title(rec.text), rec.priority, rec.providers, rec.category.GetOr("infrastructure"), Description(rec.text), Action(rec.text),
         rec.figures)
  }

  /** The projection of ranked recommendations onto output items. */
  function Project(recs: seq<Rec>): (items: seq<Item>)
    ensures |items| == |recs|
    ensures forall i :: 0 <= i < |recs| ==> items[i] == ToItem(recs[i])
    ensures forall i :: 0 <= i < |recs| ==> items[i].figures == recs[i].figures && items[i].priority == recs[i].priority
  {
    seq(|recs|, i requires 0 <= i < |recs| => ToItem(recs[i]))
  }

  /**
   * What the ranking promises, read off the output items: the asked
   * category unless "all", priorities never rising, and a shared provider
   * wherever an item names providers.
   */
  predicate WellRanked(items: seq<Item>, providers: seq<string>, categoryKey: string) {
    && (categoryKey != "all" ==> forall i :: 0 <= i < |items| ==> items[i].category == categoryKey)
    && (forall i, j :: 0 <= i < j < |items| ==> PriorityWeight(items[i].priority) <= PriorityWeight(items[j].priority))
    && (forall i :: 0 <= i < |items| ==> |items[i].providers| == 0 || exists p :: p in providers && p in items[i].providers)
  }

  lemma RankedItems(zoneKey: string, providers: seq<string>, categoryKey: string, strategic: seq<Rec>)
    ensures WellRanked(Project(Ranked(zoneKey, providers, categoryKey, strategic)), providers, categoryKey)
  {
    var ranked := Ranked(zoneKey, providers, categoryKey, strategic);
    assert forall i :: 0 <= i < |ranked| ==> ranked[i] in ranked;
  }

  /**
   * The recommendations for a request: the ranked catalog plus, in a risk
   * zone with inputs, the strategic items of the context those inputs
   * determine.
   */
  ghost predicate PrioritizedAs(items: seq<Item>, zoneKey: string, providers: seq<string>, categoryKey: string,
                                inputs: Option<(CanonicalInput, Derived)>, pow: Pow) {
    if zoneKey in RiskZones && inputs.Some? then
      exists ctx :: ContextOf(ctx, inputs.value.0, inputs.value.1.model, inputs.value.1.effectiveARPU, pow) &&
        items == Project(Ranked(zoneKey, providers, categoryKey, BuildStrategicRecommendations(zoneKey, ctx)))
    else
      items == Project(Ranked(zoneKey, providers, categoryKey, []))
  }

  /** The recommendations are a function of the request: two lists that both fit it are equal. */
  lemma PrioritizedDetermined(items1: seq<Item>, items2: seq<Item>, zoneKey: string, providers: seq<string>,
                              categoryKey: string, inputs: Option<(CanonicalInput, Derived)>, pow: Pow)
    requires PrioritizedAs(items1, zoneKey, providers, categoryKey, inputs, pow)
    requires PrioritizedAs(items2, zoneKey, providers, categoryKey, inputs, pow)
    ensures items1 == items2
  {
    if zoneKey in RiskZones && inputs.Some? {
      var ci, d := inputs.value.0, inputs.value.1;
      var c1 :| ContextOf(c1, ci, d.model, d.effectiveARPU, pow) &&
        items1 == Project(Ranked(zoneKey, providers, categoryKey, BuildStrategicRecommendations(zoneKey, c1)));
      var c2 :| ContextOf(c2, ci, d.model, d.effectiveARPU, pow) &&
        items2 == Project(Ranked(zoneKey, providers, categoryKey, BuildStrategicRecommendations(zoneKey, c2)));
      ContextDetermined(c1, c2, ci, d.model, d.effectiveARPU, pow);
    }
  }

  /** The strategic items for the request: those of the inputs' context in a risk zone, else none. */
  method StrategicFor(zoneKey: string, inputs: Option<(CanonicalInput, Derived)>, pow: Pow) returns (strategic: seq<Rec>)
    ensures zoneKey !in RiskZones || inputs.None? ==> strategic == []
    ensures zoneKey in RiskZones && inputs.Some? ==>
      exists ctx :: ContextOf(ctx, inputs.value.0, inputs.value.1.model, inputs.value.1.effectiveARPU, pow) &&
        strategic == BuildStrategicRecommendations(zoneKey, ctx)
  {
    strategic := [];
    if zoneKey in RiskZones && inputs.Some? {
      var ctx := BuildRecommendationContext(inputs.value.0, inputs.value.1.model, inputs.value.1.effectiveARPU, pow);
      strategic := BuildStrategicRecommendations(zoneKey, ctx);
    }
  }

  /**
   * `buildPrioritizedRecommendations`: outside a risk zone nothing; otherwise
   * the ranked catalog and strategic items, each sharing the zone, a provider
   * when it names any, and the category unless "all" was asked.
   */
  method BuildPrioritizedRecommendations(zoneKey: string, providers: seq<string>, category: Raw,
                                          inputs: Option<(CanonicalInput, Derived)>, pow: Pow)
    returns (items: seq<Item>)
    ensures zoneKey !in RiskZones ==> items == []
    ensures PrioritizedAs(items, zoneKey, providers, NormalizeRecommendationCategory(category), inputs, pow)
    ensures WellRanked(items, providers, NormalizeRecommendationCategory(category))
  {
    var categoryKey := NormalizeRecommendationCategory(category);
    var strategic := StrategicFor(zoneKey, inputs, pow);
    items := Project(Ranked(zoneKey, providers, categoryKey, strategic));
    RankedItems(zoneKey, providers, categoryKey, strategic);
  }

  /** The zone key, providers and category `recommendTool` reads from its arguments. */
  function RequestZone(args: Raw): string {
    if Get(args, "zoneKey").Str? then Get(args, "zoneKey").s else "awaiting"
  }

  function RequestProviders(args: Raw): seq<string> {
    if Get(args, "providers").Arr? then KeepVocabulary(Get(args, "providers").items, ProviderKeys) else []
  }

  /**
   * What `recommendTool` answers: well ranked, and the prioritised
   * recommendations of the request, with the inputs normalised and derived
   * when an object is given.
   */
  ghost predicate RecommendedFor(items: seq<Item>, args: Raw, parse: NumberParser, pow: Pow) {
    var category := NormalizeRecommendationCategory(Get(args, "category"));
    && WellRanked(items, RequestProviders(args), category)
    && (IsObject(Get(args, "inputs")) ==>
          exists ci, d :: NormalizedFrom(ci, Get(args, "inputs"), parse) && DerivedFrom(ci, d, pow) &&
            PrioritizedAs(items, RequestZone(args), RequestProviders(args), category, Some((ci, d)), pow))
    && (!IsObject(Get(args, "inputs")) ==>
          PrioritizedAs(items, RequestZone(args), RequestProviders(args), category, None, pow))
  }

  /**
   * `recommendTool`: the zone key when it is a string (else "awaiting"),
   * normalised providers and category, and the inputs, normalised and
   * derived, when an object is given.
   */
  method RecommendTool(args: Raw, parse: NumberParser, pow: Pow) returns (items: seq<Item>)
    requires PowPositive(pow)
    ensures RequestZone(args) !in RiskZones ==> items == []
    ensures RecommendedFor(items, args, parse, pow)
  {
    var zoneKey := RequestZone(args);
    var providers := NormalizeProviders(Get(args, "providers"));
    var category := NormalizeRecommendationCategory(Get(args, "category"));
    var inputs: Option<(CanonicalInput, Derived)> := None;
    var rawInputs := Get(args, "inputs");
    if IsObject(rawInputs) {
      var ci := NormalizeInputs(rawInputs, parse);
      var derived := DeriveModel(ci, pow);
      assert DerivedFrom(ci, derived, pow);
      inputs := Some((ci, derived));
    }
    assert NormalizeRecommendationCategory(Str(category)) == category;
    items := BuildPrioritizedRecommendations(zoneKey, providers, Str(category), inputs, pow);
    RecommendedFromRequest(items, args, inputs, parse, pow);
  }

  lemma RecommendedFromRequest(items: seq<Item>, args: Raw, inputs: Option<(CanonicalInput, Derived)>,
                               parse: NumberParser, pow: Pow)
    requires inputs.Some? <==> IsObject(Get(args, "inputs"))
    requires inputs.Some? ==>
      NormalizedFrom(inputs.value.0, Get(args, "inputs"), parse) && DerivedFrom(inputs.value.0, inputs.value.1, pow)
    requires var category := NormalizeRecommendationCategory(Get(args, "category"));
      && PrioritizedAs(items, RequestZone(args), RequestProviders(args), category, inputs, pow)
      && WellRanked(items, RequestProviders(args), category)
    ensures RecommendedFor(items, args, parse, pow)
  {
    if inputs.Some? {
      var ci, d := inputs.value.0, inputs.value.1;
      assert NormalizedFrom(ci, Get(args, "inputs"), parse) && DerivedFrom(ci, d, pow);
    }
  }
}
