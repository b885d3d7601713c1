/**
 * nodes/routing_node.py: the routing decision table of the graph's routing
 * node. A risk category and a claim type choose a processing path, a
 * priority, an adjuster tier and a one-line rationale; the result is written
 * into the shared state as `routing_decision_report`.
 */
module RoutingNode {
  import opened Common
  import opened Text
  import opened GraphState

  const StandardPath := "Standard Processing"
  const SiuPath := "Special Investigation Unit"
  const ReviewPath := "Detailed Review"
  const FastTrackPath := "Fast-Track Processing"

  const SiuNote := "High risk category requires SIU review"
  const MediumNote := "Medium risk category, assigned to experienced adjuster"
  const FastTrackNote := "Low risk and common claim type eligible for fast-track"
  const StandardNote := "Low risk but less common type, standard routing"

  /** The two claim types a low-risk claim may be fast-tracked for. */
  predicate FastTrackType(claimType: string)
  {
    claimType == "auto_accident" || claimType == "property_damage"
  }

  predicate KnownCategory(category: string)
  {
    category == "High" || category == "Medium" || category == "Low"
  }

  datatype Decision = Decision(path: string, priority: string, tier: string, rationale: seq<string>)

  /**
   * The routing table, row by row: what the branches of the node choose
   * for a category and a claim type.
   */
  function Route(category: string, claimType: string): (r: Decision)
    ensures |r.rationale| <= 1
    ensures r.rationale == [] <==> !KnownCategory(category)
    ensures r.path == SiuPath <==> category == "High"
    ensures r.path == ReviewPath <==> category == "Medium"
    ensures r.path == FastTrackPath <==> category == "Low" && FastTrackType(claimType)
    ensures r.priority == "Low" <==> r.path == FastTrackPath
    ensures r.priority == "High" <==> r.path == SiuPath
    ensures r.priority in {"Low", "Medium", "High"}
  {
    if category == "High" then
      Decision(SiuPath, "High", "Tier 3 (Specialist)", [SiuNote])
    else if category == "Medium" then
      Decision(ReviewPath, "Medium", "Tier 2 (Experienced)", [MediumNote])
    else if category == "Low" then
      if FastTrackType(claimType) then
        Decision(FastTrackPath, "Low", "Tier 1 (Junior)", [FastTrackNote])
      else
        Decision(StandardPath, "Medium", "Tier 2 (Experienced)", [StandardNote])
    else
      Decision(StandardPath, "Medium", "Tier 2", [])
  }

  /**
   * The body of `routing_node`: defaults first, then the branch for the
   * category reassigns the locals and appends one rationale line.
   */
  method Decide(category: string, claimType: string) returns (d: Decision)
    ensures d == Route(category, claimType)
  {
    var path := StandardPath;
    var priority := "Medium";
    var tier := "Tier 2";
    var rationale: seq<string> := [];
    if category == "High" {
      path := SiuPath;
      priority := "High";
      tier := "Tier 3 (Specialist)";
      rationale := rationale + [SiuNote];
    } else if category == "Medium" {
      path := ReviewPath;
      priority := "Medium";
      tier := "Tier 2 (Experienced)";
      rationale := rationale + [MediumNote];
    } else if category == "Low" {
      if claimType == "auto_accident" || claimType == "property_damage" {
        path := FastTrackPath;
        priority := "Low";
        tier := "Tier 1 (Junior)";
        rationale := rationale + [FastTrackNote];
      } else {
        path := StandardPath;
        priority := "Medium";
        tier := "Tier 2 (Experienced)";
        rationale := rationale + [StandardNote];
      }
    }
    d := Decision(path, priority, tier, rationale);
  }

  /**
   * The category the node reads: `risk_report.get("category", "Low")` when
   * the report is present and not the empty dict, and "Low" otherwise.
   */
  function CategoryOf(report: Option<RiskReportFields>): (c: string)
    ensures !RiskSlotTruthy(report) ==> c == "Low"
    ensures report.Some? && report.value.category.Some? ==> c == report.value.category.value
    ensures report.Some? && report.value.category.None? ==> c == "Low"
  {
    if RiskSlotTruthy(report) then
      match report.value.category
      case Some(c) => c
      case None => "Low"
    else "Low"
  }

  /** `state.get(key, default)` on an optional slot. */
  function OrDefault(v: Option<string>, default: string): (r: string)
    ensures v.None? ==> r == default
    ensures v.Some? ==> r == v.value
  {
    match v
    case Some(x) => x
    case None => default
  }

  /** The dict the node writes: the decision, the claim id and the rationale joined by "; ". */
  function ReportOf(claimId: string, d: Decision): RoutingFields
  {
    RoutingFields(Some(claimId), Some(d.path), Some(d.priority), Some(d.tier), Some(Join(d.rationale, "; ")))
  }

  /**
   * `routing_node`: reads the claim id (default "unknown"), the type (default
   * "general") and the risk report, and writes only `routing_decision_report`.
   */
  method RoutingNodeStep(state: State)
    modifies state`routingDecisionReport
    ensures state.routingDecisionReport ==
      Some(ReportOf(OrDefault(state.claimId, "unknown"),
                    Route(CategoryOf(state.riskAssessmentReport), OrDefault(state.claimType, "general"))))
  {
    var claimId := OrDefault(state.claimId, "unknown");
    var claimType := OrDefault(state.claimType, "general");
    var category := CategoryOf(state.riskAssessmentReport);
    var d := Decide(category, claimType);
    state.routingDecisionReport := Some(ReportOf(claimId, d));
  }

  // ------------------------------------------------------------ properties

  /** The joined rationale is empty or exactly the one line the branch appended. */
  lemma RationaleIsOneLine(category: string, claimType: string)
    ensures var d := Route(category, claimType);
      Join(d.rationale, "; ") == (if KnownCategory(category) then d.rationale[0] else "")
  {
  }

  /**
   * The tier goes with the path: Tier 3 exactly for the SIU, Tier 1 exactly
   * for the fast track, and the bare "Tier 2" exactly when no branch ran.
   */
  lemma TierFollowsPath(category: string, claimType: string)
    ensures var d := Route(category, claimType);
      (d.tier == "Tier 3 (Specialist)" <==> d.path == SiuPath)
      && (d.tier == "Tier 1 (Junior)" <==> d.path == FastTrackPath)
      && (d.tier == "Tier 2" <==> d.rationale == [])
  {
  }

  /** A missing risk report, or one without a category (empty or not), routes as a Low-risk claim. */
  lemma MissingReportIsLow(report: Option<RiskReportFields>, claimType: string)
    requires report.None? || report.value.category.None?
    ensures Route(CategoryOf(report), claimType) == Route("Low", claimType)
  {
  }

  /** The risk score in the report never changes the category the node routes on. */
  lemma ScoreIrrelevant(report: RiskReportFields, score: Option<int>)
    ensures CategoryOf(Some(report.(riskScore := score))) == CategoryOf(Some(report))
  {
  }

  /** An unrecognised category keeps the defaults: standard path, medium priority, bare "Tier 2", no rationale. */
  lemma UnknownCategoryDefaults(category: string, claimType: string)
    requires !KnownCategory(category)
    ensures Route(category, claimType) == Decision(StandardPath, "Medium", "Tier 2", [])
  {
  }
}
