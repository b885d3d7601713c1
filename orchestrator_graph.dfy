/**
 * orchestrator.py: the LangGraph claim graph. Every work node returns to the
 * "Orchestrator" node, whose selector picks the next node from three keys of
 * the shared state; the graph ends when the selector says END.
 */
module OrchestratorGraph {
  import opened Common
  import opened GraphState
  import RiskAnalyzeNode
  import RoutingNode

  datatype Node = Start | Orchestrator | IntakeNode | RiskAnalyzeNode | RoutingNode | End

  predicate WorkNode(n: Node)
  {
    n == IntakeNode || n == RiskAnalyzeNode || n == RoutingNode
  }

  /**
   * The selector `orchestrator`: a chain of returns over the truthiness of
   * `claim_Extracted`, `risk_assessment_report` and `routing_decision_report`.
   */
  function Select(extracted: bool, risk: Option<RiskReportFields>, routing: Option<RoutingFields>): (n: Node)
    ensures n == IntakeNode <==> !extracted
    ensures n == RiskAnalyzeNode <==> extracted && !RiskSlotTruthy(risk)
    ensures n == RoutingNode <==> extracted && RiskSlotTruthy(risk) && !RoutingSlotTruthy(routing)
    ensures n == End <==> extracted && RiskSlotTruthy(risk) && RoutingSlotTruthy(routing)
  {
    if !extracted then IntakeNode
    else if !RiskSlotTruthy(risk) then RiskAnalyzeNode
    else if !RoutingSlotTruthy(routing) then RoutingNode
    else End
  }

  /** The selector applied to the current state. */
  function SelectOf(state: State): (n: Node)
    reads state
    ensures WorkNode(n) || n == End
  {
    Select(state.claimExtracted, state.riskAssessmentReport, state.routingDecisionReport)
  }

  /**
   * The edges of the compiled graph: START to the orchestrator, the
   * orchestrator's conditional edges to the three work nodes and END, and
   * each work node back to the orchestrator.
   */
  predicate Edge(a: Node, b: Node)
  {
    (a == Start && b == Orchestrator)
    || (a == Orchestrator && (WorkNode(b) || b == End))
    || (WorkNode(a) && b == Orchestrator)
  }

  /** A walk through the graph along its edges. */
  predicate Walk(p: seq<Node>)
  {
    forall i :: 0 <= i < |p| - 1 ==> Edge(p[i], p[i + 1])
  }

  /** Every node the selector returns is the target of one of the orchestrator's conditional edges. */
  lemma SelectionIsEdge(extracted: bool, risk: Option<RiskReportFields>, routing: Option<RoutingFields>)
    ensures Edge(Orchestrator, Select(extracted, risk, routing))
  {
  }

  /** END has exactly one way in: the orchestrator's conditional edge. */
  lemma EndOnlyFromOrchestrator(a: Node)
    ensures Edge(a, End) <==> a == Orchestrator
  {
  }

  /**
   * Every walk from START alternates: the orchestrator at each odd step,
   * a work node or END at each even step after the first, and nothing
   * after END.
   */
  lemma {:induction false} WalkAlternates(p: seq<Node>)
    requires |p| > 0 && p[0] == Start && Walk(p)
    ensures forall i :: 0 < i < |p| && i % 2 == 1 ==> p[i] == Orchestrator
    ensures forall i :: 0 < i < |p| && i % 2 == 0 ==> WorkNode(p[i]) || p[i] == End
    ensures forall i :: 0 <= i < |p| - 1 ==> p[i] != End
  {
    if |p| > 1 {
      var q := p[..|p| - 1];
      assert Walk(q) by {
        forall i | 0 <= i < |q| - 1 ensures Edge(q[i], q[i + 1]) {
          assert Edge(p[i], p[i + 1]);
        }
      }
      WalkAlternates(q);
      var j := |p| - 1;
      assert Edge(p[j - 1], p[j]);
    }
  }

  /**
   * The graph makes progress on a claim that has been extracted: once the
   * risk node has written its report the selector moves on to routing,
   * and once the routing node has written its report as well, to END.
   */
  lemma SelectorAdvances(risk: RiskAnalyzeNode.RiskReport, routing: RoutingFields, claimId: string,
                         d: RoutingNode.Decision)
    ensures Select(true, Some(RiskAnalyzeNode.ToFields(risk)), None) == RoutingNode
    ensures Select(true, Some(RiskAnalyzeNode.ToFields(risk)), Some(RoutingNode.ReportOf(claimId, d))) == End
  {
  }

  /** Without `claim_Extracted` the selector sends the claim back to intake whatever the reports hold. */
  lemma NotExtractedGoesToIntake(risk: Option<RiskReportFields>, routing: Option<RoutingFields>)
    ensures Select(false, risk, routing) == IntakeNode
  {
  }
}
