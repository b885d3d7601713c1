/**
 * Backend/Agents/orchestrator.py: the three stage wrappers of the backend
 * workflow and their linear graph intake -> risk -> routing -> END. Each
 * wrapper calls its agent node, stores the result under its key and logs,
 * or records the exception as the workflow's `error`; the risk and routing
 * wrappers do nothing once an error is present. A module-level status
 * record `d` keeps, under each executed stage's key, the state object
 * itself, so later stages' changes show through every entry.
 */
module BackendOrchestrator {
  import opened Common
  import opened AgentText

  datatype Stage = Intake | Risk | Routing

  /** The stage's key in the status record `d`. */
  function StageKey(stage: Stage): string
  {
    match stage
    case Intake => "intake"
    case Risk => "risk"
    case Routing => "routing"
  }

  /** The state key the stage's node reads with `state[...]`. */
  function InputKey(stage: Stage): string
  {
    match stage
    case Intake => "user_input"
    case Risk => "claim"
    case Routing => "risk_report"
  }

  function SuccessLog(stage: Stage): string
  {
    match stage
    case Intake => "Intake Agent completed successfully"
    case Risk => "Risk Agent completed successfully"
    case Routing => "Routing Agent completed successfully"
  }

  function FailurePrefix(stage: Stage): string
  {
    match stage
    case Intake => "Intake failed: "
    case Risk => "Risk assessment failed: "
    case Routing => "Routing failed: "
  }

  /**
   * A `WorkflowState` dict as a value; the TypedDict is `total=False`, so
   * every key may be absent. The three results are what the agent nodes
   * returned.
   */
  datatype Flow = Flow(
    userInput: Option<string>,
    claim: Option<Reply>,
    riskReport: Option<Reply>,
    routingDecision: Option<Reply>,
    error: Option<string>,
    logs: Option<seq<string>>)

  /** `state.setdefault("logs", [])`: the logs, or the empty list the call inserts. */
  function LogsOf(f: Flow): seq<string>
  {
    if f.logs.Some? then f.logs.value else []
  }

  /** Whether the stage's input key is present. */
  predicate HasInput(stage: Stage, f: Flow)
  {
    match stage
    case Intake => f.userInput.Some?
    case Risk => f.claim.Some?
    case Routing => f.riskReport.Some?
  }

  /** The risk and routing wrappers return at once when "error" is in the state; intake never does. */
  predicate Skips(stage: Stage, f: Flow)
  {
    stage != Intake && f.error.Some?
  }

  /**
   * The text of the exception the stage catches: a missing input key raises
   * KeyError, whose `str` is the key in quotes; otherwise the node raised
   * and `message` is what `str(e)` gives.
   */
  function Caught(stage: Stage, f: Flow, reply: Reply, message: string): (m: Option<string>)
    ensures m.None? <==> HasInput(stage, f) && !reply.Raised?
  {
    if !HasInput(stage, f) then Some("'" + InputKey(stage) + "'")
    else if reply.Raised? then Some(message)
    else None
  }

  /** The state after one wrapper, with `reply` what the node returns or `Raised` when it raises. */
  function Step(stage: Stage, f: Flow, reply: Reply, message: string): (r: Flow)
    ensures r.userInput == f.userInput
    ensures Skips(stage, f) ==> r == f
    ensures !Skips(stage, f) ==> |LogsOf(r)| == |LogsOf(f)| + 1 && LogsOf(r)[..|LogsOf(f)|] == LogsOf(f)
    ensures !Skips(stage, f) ==> r.logs.Some?
  {
    if Skips(stage, f) then f
    else
      match Caught(stage, f, reply, message)
      case Some(m) =>
        var e := FailurePrefix(stage) + m;
        f.(error := Some(e), logs := Some(LogsOf(f) + [e]))
      case None =>
        var g := match stage
          case Intake => f.(claim := Some(reply))
          case Risk => f.(riskReport := Some(reply))
          case Routing => f.(routingDecision := Some(reply));
        g.(logs := Some(LogsOf(f) + [SuccessLog(stage)]))
  }

  /** The state as `orchestrator.invoke({"user_input": ...})` starts it. */
  function Initial(userInput: string): Flow
  {
    Flow(Some(userInput), None, None, None, None, None)
  }

  /** The three replies and exception texts of one run, one per stage. */
  datatype Calls = Calls(intake: Reply, intakeMessage: string, risk: Reply, riskMessage: string,
                         routing: Reply, routingMessage: string)

  /** The linear graph: intake, then risk, then routing, then END. */
  function Run(userInput: string, c: Calls): Flow
  {
    var f1 := Step(Intake, Initial(userInput), c.intake, c.intakeMessage);
    var f2 := Step(Risk, f1, c.risk, c.riskMessage);
    Step(Routing, f2, c.routing, c.routingMessage)
  }

  /** The mutable state dict one graph run passes through its nodes. */
  class WorkflowState {
    var userInput: Option<string>
    var claim: Option<Reply>
    var riskReport: Option<Reply>
    var routingDecision: Option<Reply>
    var error: Option<string>
    var logs: Option<seq<string>>

    function Snapshot(): Flow
      reads this
    {
      Flow(userInput, claim, riskReport, routingDecision, error, logs)
    }

    constructor (userInput: string)
      ensures Snapshot() == Initial(userInput)
    {
      this.userInput := Some(userInput);
      claim, riskReport, routingDecision := None, None, None;
      error, logs := None, None;
    }

    /** `state.setdefault("logs", []).append(entry)`. */
    method AppendLog(entry: string)
      modifies this`logs
      ensures logs == Some(LogsOf(old(Snapshot())) + [entry])
    {
      if logs.None? {
        logs := Some([]);
      }
      logs := Some(logs.value + [entry]);
    }
  }

  /** The module-level status record `d`: the state object each executed stage stored, by stage key. */
  class StatusBoard {
    var entries: map<string, WorkflowState>

    constructor ()
      ensures entries == map[]
    {
      entries := map[];
    }
  }

  /**
   * One stage wrapper: returns at once on an earlier error (risk and
   * routing only); otherwise reads its input key, calls the node (whose
   * result or exception text are the parameters), stores and logs, and
   * records the state object (not a copy) in `d` under the stage key.
   */
  method RunStage(stage: Stage, state: WorkflowState, board: StatusBoard, reply: Reply, message: string)
    modifies state, board`entries
    ensures state.Snapshot() == Step(stage, old(state.Snapshot()), reply, message)
    ensures Skips(stage, old(state.Snapshot())) ==> board.entries == old(board.entries)
    ensures !Skips(stage, old(state.Snapshot())) ==>
      board.entries == old(board.entries)[StageKey(stage) := state]
  {
    if stage != Intake && state.error.Some? {
      return;
    }
    var caught := Caught(stage, state.Snapshot(), reply, message);
    if caught.Some? {
      state.error := Some(FailurePrefix(stage) + caught.value);
      state.AppendLog(state.error.value);
    } else {
      match stage {
        case Intake => state.claim := Some(reply);
        case Risk => state.riskReport := Some(reply);
        case Routing => state.routingDecision := Some(reply);
      }
      state.AppendLog(SuccessLog(stage));
    }
    board.entries := board.entries[StageKey(stage) := state];
  }

  /**
   * The keys of `d` a run writes: intake always, risk when intake set no
   * error, and routing when neither earlier stage did.
   */
  function StoredKeys(userInput: string, c: Calls): (keys: set<string>)
    ensures "intake" in keys
    ensures "risk" in keys <==> Step(Intake, Initial(userInput), c.intake, c.intakeMessage).error.None?
    ensures "routing" in keys ==> "risk" in keys
    ensures keys <= {"intake", "risk", "routing"}
  {
    var f1 := Step(Intake, Initial(userInput), c.intake, c.intakeMessage);
    var f2 := Step(Risk, f1, c.risk, c.riskMessage);
    {"intake"} + (if f1.error.None? then {"risk"} else {}) + (if f2.error.None? then {"routing"} else {})
  }

  /**
   * `orchestrator_agent`: a fresh state with the user input, then the three
   * stages in order. Every key the run writes in `d` holds the final state
   * object, so `/status` shows the final state, logs included, under each of
   * them; keys the run does not write keep their old entries.
   */
  method Orchestrate(userInput: string, c: Calls, board: StatusBoard) returns (final: WorkflowState)
    modifies board`entries
    ensures fresh(final)
    ensures final.Snapshot() == Run(userInput, c)
    ensures board.entries.Keys == old(board.entries).Keys + StoredKeys(userInput, c)
    ensures forall k :: k in StoredKeys(userInput, c) ==> board.entries[k] == final
    ensures forall k :: k in old(board.entries) && k !in StoredKeys(userInput, c) ==>
      board.entries[k] == old(board.entries)[k]
  {
    final := new WorkflowState(userInput);
    RunStage(Intake, final, board, c.intake, c.intakeMessage);
    RunStage(Risk, final, board, c.risk, c.riskMessage);
    RunStage(Routing, final, board, c.routing, c.routingMessage);
  }

  // ------------------------------------------------------------ properties

  /** Once an error is present, the risk and routing stages change nothing: no new error, no new log. */
  lemma ErrorIsSticky(stage: Stage, f: Flow, reply: Reply, message: string)
    requires stage != Intake && f.error.Some?
    ensures Step(stage, f, reply, message) == f
  {
  }

  /**
   * An executed stage appends exactly one log entry: its success line when
   * nothing was caught, and otherwise the error it sets, which is the
   * stage's "... failed: " prefix followed by the caught text.
   */
  lemma OneLogPerStage(stage: Stage, f: Flow, reply: Reply, message: string)
    requires !Skips(stage, f)
    ensures var r := Step(stage, f, reply, message); var c := Caught(stage, f, reply, message);
      LogsOf(r) == LogsOf(f) + [if c.None? then SuccessLog(stage) else r.error.value]
      && (c.None? ==> r.error == f.error)
      && (c.Some? ==> r.error == Some(FailurePrefix(stage) + c.value))
  {
  }

  /**
   * A run in which no node raises ends without error, with all three
   * results stored and exactly the three success lines logged in order.
   */
  lemma CleanRun(userInput: string, c: Calls)
    requires !c.intake.Raised? && !c.risk.Raised? && !c.routing.Raised?
    ensures Run(userInput, c) == Flow(Some(userInput), Some(c.intake), Some(c.risk), Some(c.routing), None,
      Some([SuccessLog(Intake), SuccessLog(Risk), SuccessLog(Routing)]))
  {
    var f1 := Step(Intake, Initial(userInput), c.intake, c.intakeMessage);
    assert f1 == Flow(Some(userInput), Some(c.intake), None, None, None, Some([SuccessLog(Intake)]));
    var f2 := Step(Risk, f1, c.risk, c.riskMessage);
    assert Caught(Risk, f1, c.risk, c.riskMessage) == None;
    assert [SuccessLog(Intake)] + [SuccessLog(Risk)] == [SuccessLog(Intake), SuccessLog(Risk)];
    assert f2 == f1.(riskReport := Some(c.risk), logs := Some([SuccessLog(Intake), SuccessLog(Risk)]));
    assert Caught(Routing, f2, c.routing, c.routingMessage) == None;
    assert [SuccessLog(Intake), SuccessLog(Risk)] + [SuccessLog(Routing)]
      == [SuccessLog(Intake), SuccessLog(Risk), SuccessLog(Routing)];
  }

  /**
   * `/status` after a clean run on an empty status record: the "intake"
   * entry is the state object the later stages went on extending, so it
   * shows all three success lines, not only the intake line.
   */
  method StatusAfterCleanRun(userInput: string, c: Calls) returns (intakeLogs: seq<string>)
    requires !c.intake.Raised? && !c.risk.Raised? && !c.routing.Raised?
    ensures intakeLogs == [SuccessLog(Intake), SuccessLog(Risk), SuccessLog(Routing)]
  {
    var board := new StatusBoard();
    var final := Orchestrate(userInput, c, board);
    CleanRun(userInput, c);
    intakeLogs := LogsOf(board.entries["intake"].Snapshot());
  }

  /**
   * A run whose intake node raises stops there: the error and the one log
   * line are the intake failure, and no later stage stores anything.
   */
  lemma IntakeFailureStopsRun(userInput: string, c: Calls)
    requires c.intake.Raised?
    ensures Run(userInput, c) == Flow(Some(userInput), None, None, None,
      Some("Intake failed: " + c.intakeMessage), Some(["Intake failed: " + c.intakeMessage]))
  {
    var f1 := Step(Intake, Initial(userInput), c.intake, c.intakeMessage);
    assert f1 == Flow(Some(userInput), None, None, None,
      Some("Intake failed: " + c.intakeMessage), Some(["Intake failed: " + c.intakeMessage]));
  }

  /**
   * The number of log lines of a run is the number of stages that ran, and
   * the error, when there is one, is the last of them.
   */
  lemma {:induction false} RunLogs(userInput: string, c: Calls)
    ensures var r := Run(userInput, c);
      1 <= |LogsOf(r)| <= 3
      && (r.error.Some? ==> LogsOf(r)[|LogsOf(r)| - 1] == r.error.value)
      && (r.error.None? ==> |LogsOf(r)| == 3)
  {
    var f0 := Initial(userInput);
    var f1 := Step(Intake, f0, c.intake, c.intakeMessage);
    var f2 := Step(Risk, f1, c.risk, c.riskMessage);
    OneLogPerStage(Intake, f0, c.intake, c.intakeMessage);
    if f1.error.None? {
      OneLogPerStage(Risk, f1, c.risk, c.riskMessage);
      if f2.error.None? {
        OneLogPerStage(Routing, f2, c.routing, c.routingMessage);
      }
    }
  }
}
