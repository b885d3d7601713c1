/**
 * Frontend/src/components/dashboard/ClaimPipeline.tsx: the five-stage
 * pipeline view of the operations dashboard. Each stage names the agent it
 * follows, and its status is read off the active claim.
 */
module ClaimPipeline {
  import opened Common
  import opened ClaimRecord

  /** The values `getStageStatus` returns. */
  datatype StageStatus = Waiting | Complete | Processing | Error

  datatype Stage = Stage(id: string, title: string, agent: string)

  /** `pipelineStages`: the "new" and "intake" stages both follow the intake agent. */
  const Stages: seq<Stage> := [
    Stage("new", "New Claim", "intake"),
    Stage("intake", "Intake Agent", "intake"),
    Stage("risk_assessment", "Risk Agent", "risk_assessment"),
    Stage("routing", "Routing Agent", "routing"),
    Stage("complete", "Complete", "complete")
  ]

  /**
   * `getStageStatus(stageAgent)`: waiting without an active claim; complete
   * once the agent has finished; processing while it is the current agent;
   * error for every other stage of a failed claim; waiting otherwise.
   */
  function GetStageStatus(activeClaim: Option<Claim>, stageAgent: string): (r: StageStatus)
    ensures activeClaim.None? ==> r == Waiting
    ensures activeClaim.Some? ==>
      (r == Complete <==> stageAgent in activeClaim.value.agentsCompleted)
    ensures activeClaim.Some? ==>
      (r == Processing <==> stageAgent !in activeClaim.value.agentsCompleted && activeClaim.value.currentAgent == stageAgent)
    ensures activeClaim.Some? ==>
      (r == Error <==>
        stageAgent !in activeClaim.value.agentsCompleted && activeClaim.value.currentAgent != stageAgent
        && activeClaim.value.status == "error")
  {
    match activeClaim
    case None => Waiting
    case Some(claim) =>
      if stageAgent in claim.agentsCompleted then Complete
      else if claim.currentAgent == stageAgent then Processing
      else if claim.status == "error" then Error
      else Waiting
  }

  /** The status of every stage, in the pipeline's order. */
  function StageStatuses(activeClaim: Option<Claim>): (r: seq<StageStatus>)
    ensures |r| == |Stages|
    ensures forall i :: 0 <= i < |r| ==> r[i] == GetStageStatus(activeClaim, Stages[i].agent)
  {
    seq(|Stages|, i requires 0 <= i < |Stages| => GetStageStatus(activeClaim, Stages[i].agent))
  }

  // ------------------------------------------------------------ properties

  /** Without an active claim every stage waits. */
  lemma NoClaimAllWaiting()
    ensures forall i :: 0 <= i < |Stages| ==> StageStatuses(None)[i] == Waiting
  {
  }

  /** The "new" and "intake" stages follow the same agent, so they always show the same status. */
  lemma NewAndIntakeAgree(activeClaim: Option<Claim>)
    ensures StageStatuses(activeClaim)[0] == StageStatuses(activeClaim)[1]
  {
    assert Stages[0].agent == Stages[1].agent;
  }

  /** Stages shown as processing all follow one agent: the claim's current agent. */
  lemma ProcessingStagesShareAgent(activeClaim: Option<Claim>, i: nat, j: nat)
    requires i < |Stages| && j < |Stages|
    requires StageStatuses(activeClaim)[i] == Processing && StageStatuses(activeClaim)[j] == Processing
    ensures activeClaim.Some? && Stages[i].agent == Stages[j].agent == activeClaim.value.currentAgent
  {
  }

  /** A failed claim shows no stage as waiting: each is complete, processing or error. */
  lemma FailedClaimNothingWaits(claim: Claim, stageAgent: string)
    requires claim.status == "error"
    ensures GetStageStatus(Some(claim), stageAgent) != Waiting
  {
  }
}
