/**
 * Frontend/fnol-flow-vision/src/components/ProcessingPipeline.tsx: the
 * five-stage pipeline view of the claim processing page. Its claim record
 * is the component's own `ClaimData` interface.
 */
module ProcessingPipeline {
  import opened Common

  /** The component's claim record; its string unions are kept as strings. */
  datatype PipelineClaim = PipelineClaim(
    claimId: string,
    claimType: string,
    amount: real,
    status: string,
    currentAgent: string,
    agentsCompleted: seq<string>,
    processingTime: real)

  /** The values the stage styling handles; `getStageStatus` returns the first three only. */
  datatype StageStatus = Waiting | Active | Complete | Error

  /** The ids of `pipelineStages`, in order. */
  const StageIds: seq<string> := ["new_claim", "intake", "risk_assessment", "routing", "complete"]

  /** The stage counts as done: the claim lists it as completed, or it is the final stage and the claim reached it. */
  predicate Done(claim: PipelineClaim, stageId: string)
  {
    stageId in claim.agentsCompleted || (stageId == "complete" && claim.currentAgent == "complete")
  }

  /** The stage is being worked on: it is the current agent, or it is the first stage of a claim still processing. */
  predicate Working(claim: PipelineClaim, stageId: string)
  {
    claim.currentAgent == stageId || (stageId == "new_claim" && claim.status == "processing")
  }

  /**
   * `getStageStatus(stageId)`: waiting without a claim; complete when done,
   * even for the current agent; active when worked on and not done; waiting
   * otherwise. It never reports an error, whatever the claim's status.
   */
  function GetStageStatus(claim: Option<PipelineClaim>, stageId: string): (r: StageStatus)
    ensures r != Error
    ensures claim.None? ==> r == Waiting
    ensures claim.Some? ==> (r == Complete <==> Done(claim.value, stageId))
    ensures claim.Some? ==> (r == Active <==> !Done(claim.value, stageId) && Working(claim.value, stageId))
  {
    match claim
    case None => Waiting
    case Some(c) =>
      if stageId in c.agentsCompleted || (stageId == "complete" && c.currentAgent == "complete") then Complete
      else if c.currentAgent == stageId || (stageId == "new_claim" && c.status == "processing") then Active
      else Waiting
  }

  /** The styling of a stage in error. */
  const ErrorClasses := "bg-status-high/20 border-status-high text-status-high"

  /** `getStageClasses`: the styling of each status; any other value gets the waiting style. */
  function StageClasses(status: StageStatus): (r: string)
    ensures r == ErrorClasses <==> status == Error
  {
    assert |ErrorClasses| == 53;
    match status
    case Complete => "bg-status-low/20 border-status-low text-status-low"
    case Active => "bg-status-action/20 border-status-action text-status-action animate-pulse"
    case Error => ErrorClasses
    case Waiting => "bg-surface-tertiary border-border text-text-tertiary"
  }

  // ------------------------------------------------------------ properties

  /** A claim whose status is 'error' still shows no stage with the error styling. */
  lemma ErrorStylingUnused(claim: Option<PipelineClaim>, stageId: string)
    ensures StageClasses(GetStageStatus(claim, stageId)) != StageClasses(Error)
  {
    assert GetStageStatus(claim, stageId) != Error;
  }

  /** The final stage is complete once the claim's current agent is 'complete', whatever the completed list says. */
  lemma FinalStageComplete(claim: PipelineClaim)
    requires claim.currentAgent == "complete"
    ensures GetStageStatus(Some(claim), "complete") == Complete
  {
  }

  /** A completed stage that is also the current agent shows as complete, not active. */
  lemma CompletedBeatsCurrent(claim: PipelineClaim, stageId: string)
    requires stageId in claim.agentsCompleted && claim.currentAgent == stageId
    ensures GetStageStatus(Some(claim), stageId) == Complete
  {
  }

  /** While a claim is processing and "new_claim" is not done, the first stage is active. */
  lemma FirstStageActiveWhileProcessing(claim: PipelineClaim)
    requires claim.status == "processing" && "new_claim" !in claim.agentsCompleted
    ensures GetStageStatus(Some(claim), StageIds[0]) == Active
  {
  }
}
