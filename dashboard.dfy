/**
 * Frontend/fnol-flow-vision/src/components/Dashboard.tsx: the capped
 * processing log, the risk and status classification of a submitted claim,
 * and the state updates of `handleSubmitClaim`. The backend call is not
 * modelled: its outcome is a parameter, as are the generated id, the date,
 * and the float formatting the log messages use.
 */
module Dashboard {
  import opened Common
  import opened Text
  import opened AgentText
  import opened BrowserStorage
  import opened JsValue
  import Api
  import ClaimContext

  // ------------------------------------------------------------- the log

  datatype LogKind = Info | Success | Warning | Failure

  /** A processing log entry (its id and timestamp come from the clock and are not modelled). */
  datatype LogEntry = LogEntry(message: Message, kind: LogKind)

  /** The number of entries the log keeps. */
  const LogCap := 20

  /** `addLog`'s update: the new entry first, then the old ones, cut to the cap. */
  function Logged(logs: seq<LogEntry>, entry: LogEntry): (r: seq<LogEntry>)
    ensures |r| == if |logs| + 1 <= LogCap then |logs| + 1 else LogCap
    ensures r[0] == entry
    ensures r[1..] == logs[..|r| - 1]
  {
    ([entry] + logs)[..if |logs| + 1 <= LogCap then |logs| + 1 else LogCap]
  }

  /** Several `addLog` calls in order. */
  function LoggedAll(logs: seq<LogEntry>, entries: seq<LogEntry>): seq<LogEntry>
  {
    if entries == [] then logs
    else Logged(LoggedAll(logs, entries[..|entries| - 1]), entries[|entries| - 1])
  }

  /** However many entries are added, the log holds the cap or fewer; the latest entry is first. */
  lemma {:induction false} LogStaysCapped(logs: seq<LogEntry>, entries: seq<LogEntry>)
    requires |logs| <= LogCap
    ensures var r := LoggedAll(logs, entries);
      |r| == if |logs| + |entries| <= LogCap then |logs| + |entries| else LogCap
    ensures entries != [] ==> LoggedAll(logs, entries)[0] == entries[|entries| - 1]
  {
    if entries != [] {
      var prefix := entries[..|entries| - 1];
      LogStaysCapped(logs, prefix);
      var before := LoggedAll(logs, prefix);
      assert LoggedAll(logs, entries) == Logged(before, entries[|entries| - 1]);
      assert |Logged(before, entries[|entries| - 1])| == if |before| + 1 <= LogCap then |before| + 1 else LogCap;
    }
  }

  /** Once the log is full it stays full, and the oldest entry leaves at each addition. */
  lemma FullLogDropsOldest(logs: seq<LogEntry>, entry: LogEntry)
    requires |logs| == LogCap
    ensures Logged(logs, entry) == [entry] + logs[..LogCap - 1]
  {
  }

  // ------------------------------------------------------ classification

  datatype RiskLevel = Low | Medium | High
  datatype Status = Approved | Rejected | Processing

  function LevelName(level: RiskLevel): string
  {
    match level
    case Low => "LOW"
    case Medium => "MEDIUM"
    case High => "HIGH"
  }

  function StatusName(status: Status): string
  {
    match status
    case Approved => "approved"
    case Rejected => "rejected"
    case Processing => "processing"
  }

  /** JavaScript's conversion of a string to a number (`Number(text)`, as `>` applies it): None for NaN. */
  type ToNumber = string -> Option<real>

  /**
   * `result.risk_report?.risk_score || 0.5` as the number `>` compares: a
   * falsy or missing score is 0.5, a number is itself, `true` is 1, a
   * string converts through `toNumber`; None stands for the NaN an object
   * or an array (not modelled) compares as.
   */
  function ScoreOf(result: Json, toNumber: ToNumber): (r: Option<real>)
    ensures var s := Prop(Prop(Some(result), "risk_report"), "risk_score");
      && (!Present(s) ==> r == Some(0.5))
      && (Present(s) && s.value.JNum? ==> r == Some(s.value.n))
      && (Present(s) && s.value.JBool? ==> r == Some(1.0))
      && (Present(s) && s.value.JStr? ==> r == toNumber(s.value.s))
      && (Present(s) && s.value.JObject? ==> r.None?)
  {
    var s := Prop(Prop(Some(result), "risk_report"), "risk_score");
    if !Present(s) then Some(0.5)
    else
      match s.value
      case JNum(n) => Some(n)
      case JBool(_) => Some(1.0)
      case JStr(text) => toNumber(text)
      case _ => None
  }

  /** The backend path's level: above 0.7 HIGH, above 0.4 MEDIUM, else LOW (NaN fails both tests). */
  function BackendLevel(score: Option<real>): (level: RiskLevel)
    ensures level == High <==> score.Some? && score.value > 0.7
    ensures level == Medium <==> score.Some? && 0.4 < score.value <= 0.7
    ensures level == Low <==> score.None? || score.value <= 0.4
  {
    match score
    case Some(s) => if s > 0.7 then High else if s > 0.4 then Medium else Low
    case None => Low
  }

  /** The backend path's status: rejected exactly for HIGH risk. */
  function BackendStatus(level: RiskLevel): (status: Status)
    ensures status == Rejected <==> level == High
    ensures status != Processing
  {
    if level == High then Rejected else Approved
  }

  /** The fallback path's level, by amount: above 10000 HIGH, above 3000 MEDIUM, else LOW. */
  function FallbackLevel(amount: real): (level: RiskLevel)
    ensures level == High <==> amount > 10000.0
    ensures level == Medium <==> 3000.0 < amount <= 10000.0
    ensures level == Low <==> amount <= 3000.0
  {
    if amount > 10000.0 then High else if amount > 3000.0 then Medium else Low
  }

  /** A missing or zero score counts as 0.5, which is MEDIUM and approved. */
  lemma MissingScoreIsMedium(result: Json, toNumber: ToNumber)
    requires !Present(Prop(Prop(Some(result), "risk_report"), "risk_score"))
    ensures BackendLevel(ScoreOf(result, toNumber)) == Medium
    ensures BackendStatus(BackendLevel(ScoreOf(result, toNumber))) == Approved
  {
  }

  /** A score sent as a numeric string is compared as its number: "0.8" is HIGH and rejected. */
  lemma NumericStringScoreCoerced(result: Json, toNumber: ToNumber, text: string, x: real)
    requires Prop(Prop(Some(result), "risk_report"), "risk_score") == Some(JStr(text)) && text != ""
    requires toNumber(text) == Some(x) && x > 0.7
    ensures BackendLevel(ScoreOf(result, toNumber)) == High
    ensures BackendStatus(BackendLevel(ScoreOf(result, toNumber))) == Rejected
  {
  }

  /**
   * The backend's risk scores run from 1 to 10 (both risk scorers cap them
   * there), and every one of them is above 0.7: a scored claim is always
   * HIGH and rejected on this path.
   */
  lemma BackendScoresAllHigh(score: int)
    requires 1 <= score <= 10
    ensures BackendLevel(Some(score as real)) == High
    ensures BackendStatus(BackendLevel(Some(score as real))) == Rejected
  {
  }

  // ---------------------------------------------------------- submission

  /** The submitted form fields the dashboard reads. */
  datatype Submission = Submission(customerId: string, claimType: string, amount: real)

  datatype HistoryItem = HistoryItem(
    claimId: string, claimType: string, amount: real, date: string,
    status: Status, level: RiskLevel, customerId: string)

  /**
   * What `apiService.processClaimData` did: threw (with the Error's message,
   * None for a non-Error value), or returned a parsed result.
   */
  datatype Outcome = Threw(error: Option<string>) | Returned(result: Json)

  /** `result && result.claim`: the backend path is taken. */
  predicate BackendPath(outcome: Outcome)
  {
    outcome.Returned? && JsTruthy(outcome.result) && Present(Prop(Some(outcome.result), "claim"))
  }

  /** `CLM-2024-` and a random number below 1000, zero-padded to three digits. */
  function GeneratedId(random: nat): (id: string)
    requires random < 1000
    ensures |id| == 12 && id[..9] == "CLM-2024-"
  {
    NatToStringShort(random);
    "CLM-2024-" + PadStart(NatToString(random), 3, '0')
  }

  /** `result.claim.claim_id || <generated id>` (a non-string id is not modelled and takes the generated one). */
  function BackendId(result: Json, random: nat): string
    requires random < 1000
  {
    match Prop(Prop(Some(result), "claim"), "claim_id")
    case Some(JStr(id)) => if id != "" then id else GeneratedId(random)
    case _ => GeneratedId(random)
  }

  /** The history entry a submission adds. */
  function NewItem(sub: Submission, outcome: Outcome, random: nat, today: string, toNumber: ToNumber): (item: HistoryItem)
    requires random < 1000
    ensures BackendPath(outcome) ==> item.status != Processing && item.level == BackendLevel(ScoreOf(outcome.result, toNumber))
    ensures !BackendPath(outcome) ==> item.status == Processing && item.level == FallbackLevel(sub.amount)
    ensures item.claimType == sub.claimType && item.amount == sub.amount && item.customerId == sub.customerId
  {
    if BackendPath(outcome) then
      var level := BackendLevel(ScoreOf(outcome.result, toNumber));
      HistoryItem(BackendId(outcome.result, random), sub.claimType, sub.amount, today,
                  BackendStatus(level), level, sub.customerId)
    else
      HistoryItem(GeneratedId(random), sub.claimType, sub.amount, today,
                  Processing, FallbackLevel(sub.amount), sub.customerId)
  }

  /** A backend claim that carries a non-empty string id is filed under that id. */
  lemma BackendClaimKeepsItsId(sub: Submission, result: Json, random: nat, today: string, toNumber: ToNumber, id: string)
    requires random < 1000 && BackendPath(Returned(result))
    requires Prop(Prop(Some(result), "claim"), "claim_id") == Some(JStr(id)) && id != ""
    ensures NewItem(sub, Returned(result), random, today, toNumber).claimId == id
  {
  }

  /** A backend claim without a usable id, and every fallback claim, is filed under a generated `CLM-2024-` id. */
  lemma OtherClaimsGetGeneratedId(sub: Submission, outcome: Outcome, random: nat, today: string, toNumber: ToNumber)
    requires random < 1000
    requires BackendPath(outcome) ==>
      !exists id :: Prop(Prop(Some(outcome.result), "claim"), "claim_id") == Some(JStr(id)) && id != ""
    ensures var id := NewItem(sub, outcome, random, today, toNumber).claimId;
      |id| == 12 && id[..9] == "CLM-2024-"
  {
    if BackendPath(outcome) {
      match Prop(Prop(Some(outcome.result), "claim"), "claim_id")
      case Some(JStr(id)) =>
        assert !(Prop(Prop(Some(outcome.result), "claim"), "claim_id") == Some(JStr(id)) && id != "");
      case _ =>
    }
  }

  /**
   * What a log line says. The log keeps the message itself; `MessageText` is the
   * line `addLog` is given for it.
   */
  datatype Message =
    | Initialized
    | Submitted(customerId: string)
    | Connecting
    | ConnectionError(error: Option<string>)
    | Offline(claimId: string)
    | InvalidResponse
    | Review(claimId: string)
    | Assessment(level: RiskLevel, percent: string)
    | Category(category: string)
    | Tier(tier: string)
    | ProcessingPath(path: string)
    | Decided(claimId: string, status: Status)

  /** The text of each message, as the dashboard writes it. */
  function MessageText(m: Message): string
  {
    match m
    case Initialized => "System initialized"
    case Submitted(customerId) => "Processing new claim submission for " + customerId
    case Connecting => "Connecting to backend processing system..."
    case ConnectionError(error) =>
      "Backend connection error: " + (match error case Some(e) => e case None => "Connection failed")
    case Offline(claimId) => "Offline mode: Claim " + claimId + " requires manual review"
    case InvalidResponse => "Backend processing failed: Invalid response format"
    case Review(claimId) => "Claim " + claimId + " requires manual review"
    case Assessment(level, percent) => "Risk Assessment: " + LevelName(level) + " (Score: " + percent + "%)"
    case Category(category) => "Risk Category: " + category
    case Tier(tier) => "Assigned to: " + tier + " adjuster"
    case ProcessingPath(path) => "Processing Path: " + path
    case Decided(claimId, status) => "Claim " + claimId + " " + StatusName(status)
  }

  // The log entries a submission writes, one function per `addLog` call.

  function SubmittedLog(customerId: string): LogEntry
  {
    LogEntry(Submitted(customerId), Info)
  }

  function ConnectingLog(): LogEntry
  {
    LogEntry(Connecting, Info)
  }

  function ConnectionErrorLog(error: Option<string>): LogEntry
  {
    LogEntry(ConnectionError(error), Failure)
  }

  function OfflineLog(claimId: string): LogEntry
  {
    LogEntry(Offline(claimId), Warning)
  }

  function InvalidResponseLog(): LogEntry
  {
    LogEntry(InvalidResponse, Failure)
  }

  function ReviewLog(claimId: string): LogEntry
  {
    LogEntry(Review(claimId), Warning)
  }

  function AssessmentLog(level: RiskLevel, percent: string): LogEntry
  {
    LogEntry(Assessment(level, percent), Info)
  }

  /** `Risk Category: ${category}`, with `|| "medium"` for a missing category. */
  function CategoryLog(category: Option<Json>, render: Json -> string): LogEntry
  {
    LogEntry(Category(if Present(category) then render(category.value) else "medium"), Info)
  }

  function TierLog(tier: Json, render: Json -> string): LogEntry
  {
    LogEntry(Tier(render(tier)), Info)
  }

  function PathLog(path: Json, render: Json -> string): LogEntry
  {
    LogEntry(ProcessingPath(render(path)), Info)
  }

  function OutcomeLog(claimId: string, status: Status): LogEntry
  {
    LogEntry(Decided(claimId, status), if status == Approved then Success else Warning)
  }

  /** The log lines of the backend path, after the two opening lines. */
  function BackendLogs(result: Json, item: HistoryItem, percent: string, render: Json -> string): (r: seq<LogEntry>)
    ensures 3 <= |r| <= 5
  {
    [AssessmentLog(item.level, percent), CategoryLog(Prop(Prop(Some(result), "risk_report"), "category"), render)]
    + RoutingLogs(result, render)
    + [OutcomeLog(item.claimId, item.status)]
  }

  /** The routing lines of the backend path: the tier and the path, each when present. */
  function RoutingLogs(result: Json, render: Json -> string): seq<LogEntry>
  {
    var routing := Prop(Some(result), "routing_decision");
    var tier := Prop(routing, "adjuster_tier");
    var path := Prop(routing, "processing_path");
    (if Present(tier) then [TierLog(tier.value, render)] else [])
    + (if Present(path) then [PathLog(path.value, render)] else [])
  }

  /** The log lines of one submission after the two opening ones. */
  function OutcomeLogs(outcome: Outcome, item: HistoryItem, percent: string, render: Json -> string): (r: seq<LogEntry>)
    ensures 2 <= |r| <= 5
  {
    match outcome
    case Threw(error) => [ConnectionErrorLog(error), OfflineLog(item.claimId)]
    case Returned(result) =>
      if BackendPath(outcome) then BackendLogs(result, item, percent, render)
      else [InvalidResponseLog(), ReviewLog(item.claimId)]
  }

  /** The log lines of one submission, in the order `addLog` is called. */
  function SubmissionLogs(sub: Submission, outcome: Outcome, item: HistoryItem, percent: string,
                          render: Json -> string): (r: seq<LogEntry>)
    ensures 4 <= |r| <= 7
  {
    [SubmittedLog(sub.customerId), ConnectingLog()] + OutcomeLogs(outcome, item, percent, render)
  }

  /** The four claims the history starts with. */
  function SampleHistory(): seq<HistoryItem>
  {
    [HistoryItem("CLM-2024-001", "auto_collision", 7500.0, "2024-01-15", Approved, Medium, "CUST-001"),
     HistoryItem("CLM-2024-002", "property_damage", 2300.0, "2024-01-14", Approved, Low, "CUST-002"),
     HistoryItem("CLM-2024-003", "liability", 15000.0, "2024-01-13", Rejected, High, "CUST-003"),
     HistoryItem("CLM-2024-004", "comprehensive", 4200.0, "2024-01-12", Processing, Medium, "CUST-004")]
  }

  /** The dashboard's state. */
  class Dashboard {
    var logs: seq<LogEntry>
    var history: seq<HistoryItem>
    var totalProcessed: int
    var isLoading: bool
    var modalOpen: bool
    var processingResult: Option<Json>
    const context: ClaimContext.ClaimProvider

    /** The initial state: one "System initialized" entry, the four sample claims, 1247 processed. */
    constructor (context: ClaimContext.ClaimProvider)
      ensures this.context == context
      ensures logs == [LogEntry(Initialized, Info)]
      ensures history == SampleHistory()
      ensures totalProcessed == 1247
      ensures !isLoading && !modalOpen && processingResult.None?
    {
      this.context := context;
      logs := [LogEntry(Initialized, Info)];
      history := SampleHistory();
      totalProcessed := 1247;
      isLoading := false;
      modalOpen := false;
      processingResult := None;
    }

    /** `addLog`. */
    method AddLog(entry: LogEntry)
      modifies this`logs
      ensures logs == Logged(old(logs), entry)
    {
      logs := ([entry] + logs)[..if |logs| + 1 <= LogCap then |logs| + 1 else LogCap];
    }

    /**
     * `handleSubmitClaim`: one history entry prepended; the result stored
     * under its id in the context and in storage and the processed count
     * raised on the backend path only; loading off and the modal closed
     * whatever happened.
     */
    method HandleSubmitClaim(sub: Submission, outcome: Outcome, random: nat, today: string, toNumber: ToNumber,
                             percent: string, render: Json -> string)
      requires random < 1000
      modifies this`logs, this`history, this`totalProcessed, this`isLoading, this`modalOpen,
        this`processingResult, context`claimResults, context.storage`cell
      ensures var item := NewItem(sub, outcome, random, today, toNumber);
        history == [item] + old(history)
        && logs == LoggedAll(old(logs), SubmissionLogs(sub, outcome, item, percent, render))
      ensures totalProcessed == old(totalProcessed) + (if BackendPath(outcome) then 1 else 0)
      ensures BackendPath(outcome) ==>
        var id := NewItem(sub, outcome, random, today, toNumber).claimId;
        context.claimResults == old(context.claimResults)[id := outcome.result]
        && context.storage.cell == ClaimContext.Save(context.claimResults)
      ensures !BackendPath(outcome) ==>
        context.claimResults == old(context.claimResults) && context.storage.cell == old(context.storage.cell)
      ensures processingResult == if outcome.Returned? then Some(outcome.result) else old(processingResult)
      ensures !isLoading && !modalOpen
    {
      isLoading := true;
      Submit(sub, outcome, random, today, toNumber, percent, render);
      isLoading := false;
      modalOpen := false;
    }

    /** What happens while loading: the opening log lines, then the outcome. */
    method Submit(sub: Submission, outcome: Outcome, random: nat, today: string, toNumber: ToNumber,
                  percent: string, render: Json -> string)
      requires random < 1000
      modifies this`logs, this`history, this`totalProcessed, this`processingResult,
        context`claimResults, context.storage`cell
      ensures var item := NewItem(sub, outcome, random, today, toNumber);
        history == [item] + old(history)
        && logs == LoggedAll(old(logs), SubmissionLogs(sub, outcome, item, percent, render))
      ensures totalProcessed == old(totalProcessed) + (if BackendPath(outcome) then 1 else 0)
      ensures BackendPath(outcome) ==>
        var id := NewItem(sub, outcome, random, today, toNumber).claimId;
        context.claimResults == old(context.claimResults)[id := outcome.result]
        && context.storage.cell == ClaimContext.Save(context.claimResults)
      ensures !BackendPath(outcome) ==>
        context.claimResults == old(context.claimResults) && context.storage.cell == old(context.storage.cell)
      ensures processingResult == if outcome.Returned? then Some(outcome.result) else old(processingResult)
    {
      ghost var logs0 := logs;
      Open(sub);
      Process(sub, outcome, random, today, toNumber, percent, render);
      LoggedMore(logs0, [SubmittedLog(sub.customerId), ConnectingLog()],
        OutcomeLogs(outcome, NewItem(sub, outcome, random, today, toNumber), percent, render));
    }

    /** The two log lines every submission opens with. */
    method Open(sub: Submission)
      modifies this`logs
      ensures logs == LoggedAll(old(logs), [SubmittedLog(sub.customerId), ConnectingLog()])
    {
      ghost var logs0 := logs;
      AddLog(SubmittedLog(sub.customerId));
      AddLog(ConnectingLog());
      ghost var opening := [SubmittedLog(sub.customerId), ConnectingLog()];
      LoggedSnoc(logs0, [], opening[0]);
      LoggedSnoc(logs0, [opening[0]], opening[1]);
      assert [opening[0]] + [opening[1]] == opening;
    }

    /** The `try` block and its `catch`: the backend path or one of the two fallback paths. */
    method Process(sub: Submission, outcome: Outcome, random: nat, today: string, toNumber: ToNumber,
                   percent: string, render: Json -> string)
      requires random < 1000
      modifies this`logs, this`history, this`totalProcessed, this`processingResult,
        context`claimResults, context.storage`cell
      ensures var item := NewItem(sub, outcome, random, today, toNumber);
        history == [item] + old(history)
        && logs == LoggedAll(old(logs), OutcomeLogs(outcome, item, percent, render))
      ensures totalProcessed == old(totalProcessed) + (if BackendPath(outcome) then 1 else 0)
      ensures BackendPath(outcome) ==>
        var id := NewItem(sub, outcome, random, today, toNumber).claimId;
        context.claimResults == old(context.claimResults)[id := outcome.result]
        && context.storage.cell == ClaimContext.Save(context.claimResults)
      ensures !BackendPath(outcome) ==>
        context.claimResults == old(context.claimResults) && context.storage.cell == old(context.storage.cell)
      ensures processingResult == if outcome.Returned? then Some(outcome.result) else old(processingResult)
    {
      match outcome {
        case Threw(_) =>
          Fallback(sub, outcome, random, today, toNumber, percent, render);
        case Returned(result) =>
          processingResult := Some(result);
          if JsTruthy(result) && Present(Prop(Some(result), "claim")) {
            Backend(sub, result, random, today, toNumber, percent, render);
          } else {
            Fallback(sub, outcome, random, today, toNumber, percent, render);
          }
      }
    }

    /** The fallback path: a generated id, the amount-based level, status "processing". */
    method Fallback(sub: Submission, outcome: Outcome, random: nat, today: string, toNumber: ToNumber, percent: string, render: Json -> string)
      requires random < 1000 && !BackendPath(outcome)
      modifies this`logs, this`history
      ensures var item := NewItem(sub, outcome, random, today, toNumber);
        history == [item] + old(history)
        && logs == LoggedAll(old(logs), OutcomeLogs(outcome, item, percent, render))
    {
      var newClaimId := GeneratedId(random);
      var failed, review;
      if outcome.Threw? {
        failed, review := ConnectionErrorLog(outcome.error), OfflineLog(newClaimId);
      } else {
        failed, review := InvalidResponseLog(), ReviewLog(newClaimId);
      }
      ghost var logs0 := logs;
      AddLog(failed);
      var level := if sub.amount > 10000.0 then High else if sub.amount > 3000.0 then Medium else Low;
      var newClaim := HistoryItem(newClaimId, sub.claimType, sub.amount, today, Processing, level, sub.customerId);
      history := [newClaim] + history;
      AddLog(review);
      LoggedTwo(logs0, [], failed, review);
      assert [] + [failed, review] == [failed, review];
    }

    /** The backend path: store the result, classify it, prepend it, log it, count it. */
    method Backend(sub: Submission, result: Json, random: nat, today: string, toNumber: ToNumber, percent: string, render: Json -> string)
      requires random < 1000
      requires BackendPath(Returned(result))
      modifies this`logs, this`history, this`totalProcessed, context`claimResults, context.storage`cell
      ensures var item := NewItem(sub, Returned(result), random, today, toNumber);
        history == [item] + old(history)
        && logs == LoggedAll(old(logs), OutcomeLogs(Returned(result), item, percent, render))
        && context.claimResults == old(context.claimResults)[item.claimId := result]
      ensures context.storage.cell == ClaimContext.Save(context.claimResults)
      ensures totalProcessed == old(totalProcessed) + 1
    {
      var newClaimId := BackendId(result, random);
      Store(newClaimId, result);
      var level := BackendLevel(ScoreOf(result, toNumber));
      var status := if level == High then Rejected else Approved;
      var newClaim := HistoryItem(newClaimId, sub.claimType, sub.amount, today, status, level, sub.customerId);
      history := [newClaim] + history;
      LogBackend(result, newClaim, percent, render);
      totalProcessed := totalProcessed + 1;
    }

    /** `setClaimResult` then `saveClaimToStorage` on the same item: both hold the context's map. */
    method Store(claimId: string, result: Json)
      modifies context`claimResults, context.storage`cell
      ensures context.claimResults == old(context.claimResults)[claimId := result]
      ensures context.storage.cell == ClaimContext.Save(context.claimResults)
    {
      context.SetClaimResult(claimId, result);
      Api.SaveClaimToStorage(context.storage, claimId, result);
      assert context.claimResults[claimId := result] == context.claimResults;
    }

    /** The backend path's `addLog` calls, the two conditional ones included. */
    method LogBackend(result: Json, item: HistoryItem, percent: string, render: Json -> string)
      modifies this`logs
      ensures logs == LoggedAll(old(logs), BackendLogs(result, item, percent, render))
    {
      ghost var logs0 := logs;
      var assessment := AssessmentLog(item.level, percent);
      var category := CategoryLog(Prop(Prop(Some(result), "risk_report"), "category"), render);
      AddLog(assessment);
      AddLog(category);
      LoggedTwo(logs0, [], assessment, category);
      LogRouting(result, render);
      LoggedMore(logs0, [assessment, category], RoutingLogs(result, render));
      var outcome := OutcomeLog(item.claimId, item.status);
      AddLog(outcome);
      LoggedSnoc(logs0, [assessment, category] + RoutingLogs(result, render), outcome);
    }

    /** The two conditional `addLog` calls of the routing decision. */
    method LogRouting(result: Json, render: Json -> string)
      modifies this`logs
      ensures logs == LoggedAll(old(logs), RoutingLogs(result, render))
    {
      var routing := Prop(Some(result), "routing_decision");
      var tier := Prop(routing, "adjuster_tier");
      var path := Prop(routing, "processing_path");
      ghost var logs0 := logs;
      ghost var sent: seq<LogEntry> := [];
      if Present(tier) {
        var e := TierLog(tier.value, render);
        AddLog(e);
        LoggedSnoc(logs0, sent, e);
        sent := sent + [e];
      }
      if Present(path) {
        var e := PathLog(path.value, render);
        AddLog(e);
        LoggedSnoc(logs0, sent, e);
        sent := sent + [e];
      }
      assert sent == RoutingLogs(result, render);
    }
  }

  /**
   * Every submission's log opens with the customer and the connection
   * attempt and closes with the line that names the new claim: its decision
   * on the backend path, a manual review after an invalid response, offline
   * review after a thrown error.
   */
  lemma SubmissionLogsBracketed(sub: Submission, outcome: Outcome, random: nat, today: string, toNumber: ToNumber,
                                percent: string, render: Json -> string)
    requires random < 1000
    ensures var item := NewItem(sub, outcome, random, today, toNumber);
      var r := SubmissionLogs(sub, outcome, item, percent, render);
      r[0] == SubmittedLog(sub.customerId) && r[1] == ConnectingLog()
      && r[|r| - 1] == (if BackendPath(outcome) then OutcomeLog(item.claimId, item.status)
                        else if outcome.Threw? then OfflineLog(item.claimId)
                        else ReviewLog(item.claimId))
  {
  }

  /** One more `addLog` after a batch. */
  lemma LoggedSnoc(logs: seq<LogEntry>, sent: seq<LogEntry>, e: LogEntry)
    ensures LoggedAll(logs, sent + [e]) == Logged(LoggedAll(logs, sent), e)
  {
    assert (sent + [e])[..|sent|] == sent;
  }

  /** Logging two more entries after some. */
  lemma LoggedTwo(logs: seq<LogEntry>, first: seq<LogEntry>, a: LogEntry, b: LogEntry)
    ensures Logged(Logged(LoggedAll(logs, first), a), b) == LoggedAll(logs, first + [a, b])
  {
    var all := first + [a, b];
    assert all[..|all| - 1] == first + [a];
    assert (first + [a])[..|first|] == first;
  }

  /** Logging a batch after a first batch is logging both batches. */
  lemma {:induction false} LoggedMore(logs: seq<LogEntry>, first: seq<LogEntry>, more: seq<LogEntry>)
    ensures LoggedAll(LoggedAll(logs, first), more) == LoggedAll(logs, first + more)
  {
    if more == [] {
      assert first + more == first;
    } else {
      LoggedMore(logs, first, more[..|more| - 1]);
      assert (first + more)[..|first + more| - 1] == first + more[..|more| - 1];
    }
  }
}
