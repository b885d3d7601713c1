/**
 * The shared state of the LangGraph claim graph (state.py together with the
 * keys orchestrator.py and the nodes read and write). Python keeps it in a
 * dict that every node mutates in place; here it is an object whose fields
 * the nodes assign.
 */
module GraphState {
  import opened Common

  /**
   * The `risk_assessment_report` dict as a reader sees it: each key may be
   * absent. The empty dict has every key absent.
   */
  datatype RiskReportFields = RiskReportFields(
    claimId: Option<string>,
    riskScore: Option<int>,
    category: Option<string>,
    reasons: Option<seq<string>>)

  /** The `routing_decision_report` dict, each key possibly absent. */
  datatype RoutingFields = RoutingFields(
    claimId: Option<string>,
    processingPath: Option<string>,
    priority: Option<string>,
    adjusterTier: Option<string>,
    rationale: Option<string>)

  /** Python truthiness of a dict-valued slot: present, and not the empty dict. */
  predicate RiskSlotTruthy(slot: Option<RiskReportFields>)
  {
    slot.Some? && (slot.value.claimId.Some? || slot.value.riskScore.Some?
                   || slot.value.category.Some? || slot.value.reasons.Some?)
  }

  predicate RoutingSlotTruthy(slot: Option<RoutingFields>)
  {
    slot.Some? && (slot.value.claimId.Some? || slot.value.processingPath.Some?
                   || slot.value.priority.Some? || slot.value.adjusterTier.Some?
                   || slot.value.rationale.Some?)
  }

  class State {
    /** `claim_id`: read with `state["claim_id"]` by the risk node, with a default by the routing node. */
    var claimId: Option<string>
    /** `type`, read with a default by the routing node. */
    var claimType: Option<string>
    var amount: real
    var previousClaimsCount: int
    var customerTenureDays: int
    var injuriesReported: bool
    var otherPartyInvolved: bool
    /** `claim_Extracted`; an absent key reads as false. */
    var claimExtracted: bool
    var riskAssessmentReport: Option<RiskReportFields>
    var routingDecisionReport: Option<RoutingFields>

    constructor (claimId: Option<string>, claimType: Option<string>, amount: real,
                 previousClaimsCount: int, customerTenureDays: int,
                 injuriesReported: bool, otherPartyInvolved: bool)
      ensures this.claimId == claimId && this.claimType == claimType
      ensures this.amount == amount && this.previousClaimsCount == previousClaimsCount
      ensures this.customerTenureDays == customerTenureDays
      ensures this.injuriesReported == injuriesReported
      ensures this.otherPartyInvolved == otherPartyInvolved
      ensures !claimExtracted && riskAssessmentReport.None? && routingDecisionReport.None?
    {
      this.claimId := claimId;
      this.claimType := claimType;
      this.amount := amount;
      this.previousClaimsCount := previousClaimsCount;
      this.customerTenureDays := customerTenureDays;
      this.injuriesReported := injuriesReported;
      this.otherPartyInvolved := otherPartyInvolved;
      claimExtracted := false;
      riskAssessmentReport := None;
      routingDecisionReport := None;
    }
  }
}
