# FNOL claim processing: a Dafny model of its rule logic

This project models the deterministic core of a first-notice-of-loss (FNOL)
insurance claim system and proves properties of it. The system has three parts:
a LangGraph pipeline of Python agents that takes in, scores and routes a claim;
a FastAPI workflow that wraps the same agents; and several React dashboards
that submit claims and show the results. The model covers these parts:

- **Risk scoring** (`risk_analyze_node.dfy`, `risk_agent.dfy`). These are the
  additive fraud-score rules: start at 1, add a fixed weight for each rule that
  fires, cap to 1..10, and bucket into Low, Medium or High. The graph node and
  the backend tool share one rule table, and a lemma proves they agree.
- **Routing** (`routing_node.dfy`, `routing_agent.dfy`). This is the decision
  table from risk category and claim type to processing path, priority,
  adjuster tier and rationale, in both copies, with their agreement proved.
- **Pipeline control**:
  - the orchestrator's next-node selector and graph (`orchestrator_graph.dfy`,
    `graph_state.dfy`);
  - the error short-circuiting stage wrappers of the backend workflow
    (`backend_orchestrator.dfy`);
  - the claim validator and the `VALID_CLAIM:` marker handling
    (`intake_graph.dfy`);
  - the bounded chat memory (`chat_ai.dfy`);
  - the brace window and marker split the agents share (`agent_text.dfy`).
- **Streaming decode** (`claim_processor.dfy`). The newline-delimited JSON
  reader keeps a buffer across chunks and appends results in order. It is
  proved to give the results of the whole stream text, whatever the chunk
  boundaries are.
- **Claim result store** (`storage.dfy`, `claim_context.dfy`, `api.dfy`). This
  is the one `fnol_claim_results` item of `localStorage`, reached through the
  React context and through the API service. The API service's claim-to-text
  formatter belongs here too.
- **Forms and classification**:
  - the two claim forms, their validation and their dump-text parsing
    (`claim_submission_modal.dfy`, `submit_claim_modal.dfy`);
  - the dashboard's 20-entry log, its risk and status classification, and its
    submission handler (`dashboard.dfy`).
- **Lists and pages** (`processing_pipeline.dfy`, `claim_pipeline.dfy`,
  `index_page.dfy`, `claims_page.dfy`, `claim_history.dfy`, `alerts_page.dfy`,
  `claim.dfy`). These cover stage status, claim id generation, filtering,
  sorting and alert dismissal.

Code that updates state step by step is modelled as classes with methods:
Python dicts mutated in place, React state updated in call order, and the
storage item. Pure expressions are modelled as functions. Every foreign call
becomes a parameter:

- language-model replies;
- `json.loads`, `JSON.parse`, `Number` and `parseFloat`;
- pydantic;
- `Date`, `Math.random` and the network.

Amounts are `real`, since the source's amounts are floats that are only
compared or floor-divided. Scores and counts are `int`.

Three observations about the code, shown by the model:

- **The dashboard misreads the backend's risk score.** The dashboard reads
  `risk_report.risk_score` on a 0..1 scale: above 0.7 is HIGH. The backend's
  scores run from 1 to 10. So every claim the backend scores is HIGH and
  rejected on that path (`Dashboard.BackendScoresAllHigh`).
- **A failed stream request clears the results.** `processClaim` calls `reset()`
  before it sends the request (frontend/src/hooks/useClaimProcessor.ts:31), so a
  non-OK response leaves the results empty rather than as they were
  (`ClaimProcessor.ClaimProcessor.ProcessClaim`).
- **The scores of the submit form are not monotone in the amount.** Without
  injuries, the formula for amounts above 50000 restarts below the one for
  smaller amounts: 50000 scores 6 and 50001 scores 5
  (`SubmitClaimModal.ScoreFallsAcrossThreshold`).

## Model

| member | source | states |
|---|---|---|
| Text.FindFrom | src/pages/Claims.tsx:22-24 | the first occurrence of the pattern at or after the start position, or none when there is no occurrence there |
| Text.ContainsIff | src/pages/Claims.tsx:22-24 | `includes` holds exactly when the pattern occurs at some position |
| Text.ContainsTrans | src/pages/Claims.tsx:22-24 | a text containing a string contains every part of that string |
| Text.IndexOfChar | src/components/dashboard/SubmitClaimModal.tsx:73 | `indexOf` of a character: its first position, or none exactly when it does not occur |
| Text.LastIndexOfChar | Backend/Agents/risk_agent.py:46 | `rfind` of a character: its last position, or none exactly when it does not occur |
| Text.SecondPiece | Backend/Agents/risk_agent.py:160 | Python `s.split(sep)[1]`: defined exactly when the separator occurs; then the text that starts right after its first occurrence and runs to the next occurrence, or to the end when there is none |
| Text.SecondPieceOfMarked | Backend/Agents/risk_agent.py:160 | a marker followed by a payload free of the marker splits back into that payload |
| Text.Join | Backend/Agents/intake_graph.py:102 | joining no parts gives the empty string, one part gives that part |
| Text.JoinAppend | Backend/Agents/intake_graph.py:102 | joining one more part appends the separator and that part |
| Text.Split | frontend/src/hooks/useClaimProcessor.ts:92 | `split` on a character: at least one piece, none holding the separator |
| Text.SplitJoin | frontend/src/hooks/useClaimProcessor.ts:92 | joining the pieces of a split with the separator gives the text back, so every character of the stream lands in some line |
| Text.SplitNoSeparator | frontend/src/hooks/useClaimProcessor.ts:92 | text without the separator splits into itself alone |
| Text.SplitAppend | frontend/src/hooks/useClaimProcessor.ts:89-94 | splitting a text with more appended changes only the last piece onwards: the earlier pieces stay complete lines |
| Text.TrimStart | src/components/dashboard/SubmitClaimModal.tsx:51 | a suffix of the text, with only white space removed in front, starting with a non-space |
| Text.TrimEnd | src/components/dashboard/SubmitClaimModal.tsx:51 | a prefix of the text, with only white space removed behind, ending with a non-space |
| Text.Trim | src/components/dashboard/SubmitClaimModal.tsx:51 | `trim()`: no longer than the text, non-space at both ends, empty exactly for all-space text |
| Text.TrimPadded | Frontend/fnol-flow-vision/src/services/api.ts:55-65 | trimming white-space padding around a core with non-space ends gives back the core |
| Text.ToLower | src/pages/Claims.tsx:22-24 | `toLowerCase()`: same length, each character lowered |
| Text.LowerKeepsContains | src/pages/Claims.tsx:22-24 | lowering both sides keeps a containment |
| Text.NatToString | Frontend/src/pages/Index.tsx:39 | `String(n)`: one or more digits with no leading zero |
| Text.NatToStringValue | Frontend/src/pages/Index.tsx:39 | the digits read back as the number |
| Text.NatToStringShort | Frontend/fnol-flow-vision/src/components/Dashboard.tsx:127 | a number below 1000 has at most three digits |
| Text.PadStart | Frontend/src/pages/Index.tsx:39 | `padStart(width, fill)`: the text at the end, fill characters in front, the width reached unless the text is already longer |
| Text.LeadingZerosValue | Frontend/src/pages/Index.tsx:39 | leading zeros do not change the number digits read as |
| AgentText.PyNumber | Backend/Agents/risk_agent.py:67-87 | a JSON value compares against an int exactly when it is a number or a boolean |
| AgentText.Get | Backend/Agents/risk_agent.py:56-61 | `get` yields the stored value for a present key and the default for an absent one |
| AgentText.BraceWindow | Backend/Agents/risk_agent.py:44-51 | the window is missing exactly when the text lacks '{' or '}'; a non-empty window starts with '{' and ends with '}' |
| AgentText.BraceWindowOfWrapped | Backend/Agents/risk_agent.py:44-47 | for text with no '{' before a braced payload and no '}' after it, the window is exactly that payload, from the first '{' through the last '}' |
| AgentText.MarkedReply | Backend/Agents/risk_agent.py:156-170 | an error dict holding the final message exactly when the marker is absent; when "marker + space" occurs, the text after its first occurrence is loaded: a loadable one gives its value, an unloadable one its raw text where decode errors are caught and an exception where they are not; with the catch, an exception exactly when the marker occurs only without the space |
| AgentText.MarkedReplyOfToolOutput | Backend/Agents/risk_agent.py:111-162 | a final message that is the marker, a space and a payload (with no second marker) yields the payload's loaded value |
| AgentText.ColonWithoutSpaceRaises | Backend/Agents/risk_agent.py:159-160 | a message with the marker but never followed by a space raises IndexError from `split(...)[1]` |
| RiskAnalyzeNode.Cap | nodes/risk_analyze_node.py:53 | the capped score is always in 1..10, equals the score when that is already in range, and is 1 below and 10 above |
| RiskAnalyzeNode.Category | nodes/risk_analyze_node.py:55-60 | "Low" exactly for scores up to 3, "Medium" exactly for 4..6, "High" exactly from 7 |
| RiskAnalyzeNode.ApplyRule | nodes/risk_analyze_node.py:27-49 | one rule step adds the rule's weight when it fires and appends exactly its one reason, else changes nothing |
| RiskAnalyzeNode.Score | nodes/risk_analyze_node.py:12-67 | the scoring body yields the state's claim id, the capped rule total (always 1..10), its category, and the texts of the fired rules in rule order |
| RiskAnalyzeNode.RiskAssessmentAgent | nodes/risk_analyze_node.py:6-71 | a missing `claim_id` raises KeyError and writes nothing; otherwise exactly `risk_assessment_report` is set to the report for the state's facts |
| RiskAnalyzeNode.RawScoreFormula | nodes/risk_analyze_node.py:12-49 | the uncapped score is 1 + 3[amount>50000] + 2[prev>=3] + 2[tenure<30] + 1[injuries and no other party] + 2[amount<=0] |
| RiskAnalyzeNode.RawScoreIsWeightSum | nodes/risk_analyze_node.py:12-49 | the uncapped score is 1 plus the weights of the rules that fire |
| RiskAnalyzeNode.TextsFormula | nodes/risk_analyze_node.py:27-49 | the reasons are the fired rules' texts in the order the rules are tested |
| RiskAnalyzeNode.RawScoreInRange | nodes/risk_analyze_node.py:27-53 | the high-amount and invalid-amount rules never both fire, so the uncapped score is in 1..9 and the cap never changes it |
| RiskAnalyzeNode.NoRuleFires | nodes/risk_analyze_node.py:12-60 | with no rule firing the report is score 1, "Low", no reasons |
| RiskAnalyzeNode.FiredMembers | nodes/risk_analyze_node.py:27-49 | at most five rules fire, and a rule is among the fired ones exactly when its test holds |
| RiskAnalyzeNode.ReasonsFollowRules | nodes/risk_analyze_node.py:27-49 | one reason per fired rule, and a rule's reason appears exactly when the rule fires |
| RiskAnalyzeNode.ReasonInjective | nodes/risk_analyze_node.py:29-49 | different rules record different reason texts |
| RiskAgent.ClaimFacts | Backend/Agents/risk_agent.py:56-87 | the rules fail to compare exactly when amount, previous claims or tenure is not a number or boolean; absent fields default to 0 and flags to false |
| RiskAgent.Assessment | Backend/Agents/risk_agent.py:40-116 | the "Could not parse" error exactly when a brace is missing; a JSON error carries `json.loads`' message on the window; a report always has a score in 1..10 and its bucket category; once the window parses, the outcome is a non-object failure exactly when the value is not a dict, a TypeError failure exactly when a numeric field is not comparable, an invalid-id failure exactly when pydantic rejects the id, and otherwise the report `AgentReport` computes from the id and the read facts |
| RiskAgent.AssessRisk | Backend/Agents/risk_agent.py:33-116 | the tool's steps (extract, load, default, score, cap, categorise) produce exactly `Assessment` |
| RiskAgent.ToolText | Backend/Agents/risk_agent.py:111 | a successful result is "RISK_ASSESSMENT: " followed by the serialised report |
| RiskAgent.RiskAgentNode | Backend/Agents/risk_agent.py:156-170 | error dict exactly without "RISK_ASSESSMENT:"; IndexError exactly when the marker occurs only without its space; otherwise the text after the first "RISK_ASSESSMENT: " gives its loaded value, or itself as raw content when it does not load |
| RiskAgent.AgentReasonDiffers | Backend/Agents/risk_agent.py:69-89 | the tool's reason text equals the graph node's exactly for the three rules other than high amount and solo injury |
| RiskAgent.AgentAgreesWithNode | Backend/Agents/risk_agent.py:63-100 | for equal facts the tool and the graph node give the same score, the same category and one reason per fired rule, differing only in the wording of the high-amount and injury reasons |
| RiskAgent.EmptyClaimScoresFive | Backend/Agents/risk_agent.py:44-89 | the payload `{}` scores 5, "Medium", for claim "unknown", with the new-customer and invalid-amount reasons |
| RiskAgent.EmptyWindowScoresFive | Backend/Agents/risk_agent.py:48-100 | any input whose brace window is `{}` gets that same report |
| RiskAgent.EmptyClaimFacts | Backend/Agents/risk_agent.py:56-61 | an empty object reads as amount 0, no previous claims, tenure 0 and both flags false |
| RiskAgent.NodeReadsToolOutput | Backend/Agents/risk_agent.py:111-162 | the node reads back exactly the loaded report when the final message is the tool's own successful output |
| RoutingNode.Route | nodes/routing_node.py:18-51 | SIU exactly for "High", Detailed Review exactly for "Medium", Fast-Track exactly for "Low" with auto_accident or property_damage; priority Low exactly on the fast track and High exactly for the SIU, always Low, Medium or High; one rationale line exactly for a known category |
| RoutingNode.TierFollowsPath | nodes/routing_node.py:21-50 | "Tier 3 (Specialist)" exactly for the SIU, "Tier 1 (Junior)" exactly for the fast track, the bare "Tier 2" exactly when no branch ran |
| RoutingNode.Decide | nodes/routing_node.py:18-51 | the node's default-then-reassign branches compute exactly `Route` |
| RoutingNode.CategoryOf | nodes/routing_node.py:13-15 | a missing or empty report reads as "Low", and so does a report without a category; a report's category is used as given |
| RoutingNode.OrDefault | nodes/routing_node.py:11-12 | `state.get(key, default)`: the default for an absent key, else the value |
| RoutingNode.RoutingNodeStep | nodes/routing_node.py:4-65 | exactly `routing_decision_report` is written, with the id (default "unknown") and the decision for the report's category and the type (default "general") |
| RoutingNode.RationaleIsOneLine | nodes/routing_node.py:22-59 | the joined rationale is the one line the branch appended, or empty for an unknown category |
| RoutingNode.MissingReportIsLow | nodes/routing_node.py:13-15 | every report that is missing or has no category routes exactly as "Low" |
| RoutingNode.ScoreIrrelevant | nodes/routing_node.py:16 | the risk score never changes the category routed on |
| RoutingNode.UnknownCategoryDefaults | nodes/routing_node.py:19-59 | any other category keeps Standard Processing, Medium, bare "Tier 2" and no rationale |
| RoutingAgent.AsText | Backend/Agents/routing_agent.py:56-81 | a JSON string compares as its text; any other value matches no category and no fast-track type |
| RoutingAgent.AgentRoute | Backend/Agents/routing_agent.py:59-90 | the tool's table always yields a priority in Low/Medium/High and a tier in Tier 1/2/3 |
| RoutingAgent.Decide | Backend/Agents/routing_agent.py:59-90 | the tool's default-then-reassign branches compute exactly `AgentRoute` |
| RoutingAgent.Routing | Backend/Agents/routing_agent.py:39-107 | the "Could not parse" error exactly when a brace is missing; a JSON error carries `json.loads`' message on the window; a decision always has a valid priority and tier; once the window parses, the outcome is a non-object failure exactly when the value is not a dict, an invalid-id failure exactly when pydantic rejects the id, and otherwise the `RoutingDecision` built from `AgentRoute` of the category and type read with their defaults and the rationale joined by "; " |
| RoutingAgent.RouteClaim | Backend/Agents/routing_agent.py:34-107 | the tool's steps produce exactly `Routing` |
| RoutingAgent.ToolText | Backend/Agents/routing_agent.py:102 | a successful result is "ROUTING_DECISION: " followed by the serialised decision |
| RoutingAgent.RoutingAgentNode | Backend/Agents/routing_agent.py:146-160 | error dict exactly without "ROUTING_DECISION:"; IndexError exactly when the marker occurs only without its space; otherwise the text after the first "ROUTING_DECISION: " gives its loaded value, or itself as raw content when it does not load |
| RoutingAgent.AgentAgreesWithNode | Backend/Agents/routing_agent.py:59-90 | for the same category and type, path, priority and rationale equal the graph node's; the tier label is a prefix of the node's (no parenthesised suffix) |
| RoutingAgent.MissingTypeNeverFastTracked | Backend/Agents/routing_agent.py:55-81 | a risk report without `type` is never fast-tracked |
| RoutingAgent.MissingCategoryIsLow | Backend/Agents/routing_agent.py:56 | a missing category routes exactly as "Low" |
| RoutingAgent.NodeReadsToolOutput | Backend/Agents/routing_agent.py:102-152 | the node reads back exactly the loaded decision when the final message is the tool's own successful output |
| GraphState.State.constructor | state.py:4-18 | a fresh claim state holds the given claim fields, is not yet extracted and has neither report |
| OrchestratorGraph.Select | orchestrator.py:26-37 | Intake exactly when not extracted; Risk Analyze exactly when extracted without a truthy risk report; Routing exactly when both of those hold but no truthy routing report; END exactly when all three are present |
| OrchestratorGraph.SelectOf | orchestrator.py:26-47 | the selector always names a work node or END |
| OrchestratorGraph.SelectionIsEdge | orchestrator.py:42-47 | whatever the selector returns is one of the orchestrator's conditional edges |
| OrchestratorGraph.EndOnlyFromOrchestrator | orchestrator.py:41-50 | END is reached only from the orchestrator node |
| OrchestratorGraph.WalkAlternates | orchestrator.py:41-50 | every walk from START alternates the orchestrator with a work node (or END), and END only ever comes last |
| OrchestratorGraph.SelectorAdvances | orchestrator.py:31-37 | once the risk node has written its report the selector moves to routing, and once the routing node has written its report it says END |
| OrchestratorGraph.NotExtractedGoesToIntake | orchestrator.py:28-29 | an unextracted claim goes to Intake, whatever the reports hold |
| BackendOrchestrator.Caught | Backend/Agents/orchestrator.py:38-74 | a stage's `try` completes exactly when its input key is present and the agent call does not raise |
| BackendOrchestrator.Step | Backend/Agents/orchestrator.py:36-76 | a skipped stage leaves the state as it was; a run stage keeps the user input, creates `logs` when absent and appends exactly one entry to it |
| BackendOrchestrator.WorkflowState.constructor | Backend/Agents/orchestrator.py:105-107 | the graph starts from a state holding only `user_input` |
| BackendOrchestrator.WorkflowState.AppendLog | Backend/Agents/orchestrator.py:41-44 | `setdefault("logs", []).append(entry)`: the old log (empty when absent) with the entry at its end |
| BackendOrchestrator.StatusBoard.constructor | Backend/Agents/orchestrator.py:13 | the module-level status record starts empty |
| BackendOrchestrator.RunStage | Backend/Agents/orchestrator.py:36-76 | one node wrapper changes the state exactly as `Step` says; a skipped stage leaves the status record alone, a run stage sets its own entry to the state object itself (`d[key] = state`), not a copy |
| BackendOrchestrator.Orchestrate | Backend/Agents/orchestrator.py:82-109 | the compiled graph runs intake, risk and routing in that order and ends; the final state is `Run` of the input and the three agent results; every key of `d` the run writes holds that final state object, and the other keys keep their entries |
| BackendOrchestrator.StoredKeys | Backend/Agents/orchestrator.py:45-75 | the keys a run writes in `d`: "intake" always, "risk" exactly when intake set no error, "routing" only when "risk" was written too |
| BackendOrchestrator.StatusAfterCleanRun | Backend/Agents/orchestrator.py:36-114 | after a clean run, `/status` shows all three success lines under "intake", because the entry is the state the later stages kept extending |
| BackendOrchestrator.ErrorIsSticky | Backend/Agents/orchestrator.py:51-67 | once `error` is set, the risk and routing wrappers return the state unchanged |
| BackendOrchestrator.OneLogPerStage | Backend/Agents/orchestrator.py:39-74 | a run stage appends "... completed successfully" and keeps `error`, or sets `error` to "<Stage> failed: <message>" and appends that same string |
| BackendOrchestrator.CleanRun | Backend/Agents/orchestrator.py:36-94 | with no exception the final state holds all three results, no error and the three success logs in order |
| BackendOrchestrator.IntakeFailureStopsRun | Backend/Agents/orchestrator.py:42-67 | an intake failure leaves only the user input, the "Intake failed: ..." error and that one log entry |
| BackendOrchestrator.RunLogs | Backend/Agents/orchestrator.py:36-94 | a run logs one to three entries; a failed run's last entry is its error, a clean run has exactly three |
| IntakeGraph.ApplyCheck | Backend/Agents/intake_graph.py:88-99 | one check appends its message exactly when it fails, else leaves the list alone |
| IntakeGraph.CollectErrors | Backend/Agents/intake_graph.py:87-99 | the checks run in the order claim_id, amount, date, customer_id, policy_number, incident_location and collect exactly `Errors` |
| IntakeGraph.ValidateClaimJson | Backend/Agents/intake_graph.py:74-109 | a JSON error exactly when `json.loads` fails; a schema error exactly when it loads but the Claim model rejects it; a valid claim, echoing the unmodified input, exactly when no check fails; otherwise the (non-empty) collected errors |
| IntakeGraph.ToolText | Backend/Agents/intake_graph.py:101-104 | "VALID_CLAIM: " and the input, or "VALIDATION_ERRORS: " and the errors joined by "; " |
| IntakeGraph.IntakeAgentNode | Backend/Agents/intake_graph.py:147-155 | an error dict exactly without "VALID_CLAIM:"; never raw content; an exception when the marker occurs only without its space or when the text after the first "VALID_CLAIM: " does not load; its loaded value when it does |
| IntakeGraph.NoErrorsIffAllPass | Backend/Agents/intake_graph.py:87-104 | no errors exactly when every check passes |
| IntakeGraph.MessageInjective | Backend/Agents/intake_graph.py:89-99 | different checks have different messages |
| IntakeGraph.InFlagged | Backend/Agents/intake_graph.py:88-99 | a check's message is in one check's contribution exactly when it is that check and it fails |
| IntakeGraph.ErrorsNameFailingChecks | Backend/Agents/intake_graph.py:87-99 | at most six errors, and a check's message appears exactly when the check fails |
| IntakeGraph.NonPositiveAmountFlagged | Backend/Agents/intake_graph.py:90-91 | an amount of 0 or less always yields "amount must be greater than 0." |
| IntakeGraph.ValidClaimReachesNode | Backend/Agents/intake_graph.py:104-152 | the tool's "VALID_CLAIM: " output, echoed as the final message, reaches the node as the loaded claim |
| IntakeGraph.UnparsedClaimRaises | Backend/Agents/intake_graph.py:150-152 | text after the marker that fails to load raises out of the node |
| ChatAi.Entries | chat_ai.py:31 | one "User: q\nAssistant: a" entry per stored pair, in order |
| ChatAi.HistoryString | chat_ai.py:31-33 | `history_str` (built the same way again at lines 57-59): empty exactly when the history is, and otherwise ending with "\n" |
| ChatAi.HistoryStringAppend | chat_ai.py:31-33 | one more pair adds exactly its entry and a "\n" to the history string |
| ChatAi.Prompt | chat_ai.py:39-40 | the question the chain sees is the history string followed by the raw question |
| ChatAi.LastNine | chat_ai.py:43 | `history[-9:]`: the last nine pairs, or all of them when there are fewer |
| ChatAi.Remember | chat_ai.py:43-45 | after an answer the history is the last nine old pairs (at most) and then the raw question with its answer |
| ChatAi.ChatSession.constructor | chat_ai.py:16-17 | the history starts empty |
| ChatAi.ChatSession.Ask | chat_ai.py:20-47 | the response is the chain's answer to the claim data and the prompt built from the old history; the history becomes `Remember` of that pair |
| ChatAi.ChatSession.AskStream | chat_ai.py:50-74 | the chunks yielded are the chain's stream for the prompt, cut at the consumer's stop; a drained stream stores their concatenation, with the same truncation, and an abandoned one leaves the history unchanged |
| ChatAi.MemoryBounded | chat_ai.py:43-74 | after any sequence of calls the history holds at most ten pairs and the newest pair is last |
| ChatAi.OldestDroppedFirst | chat_ai.py:43-45 | with ten pairs stored, a new answer drops exactly the oldest |
| ClaimProcessor.Accept | frontend/src/hooks/useClaimProcessor.ts:96-110 | a blank line yields nothing, any line yields at most one result (a parse failure is skipped) |
| ClaimProcessor.ClaimProcessor.constructor | frontend/src/hooks/useClaimProcessor.ts:21-23 | not processing, no results, no completed nodes |
| ClaimProcessor.ClaimProcessor.Reset | frontend/src/hooks/useClaimProcessor.ts:25-29 | `reset` always empties results and completed nodes and clears the flag |
| ClaimProcessor.ClaimProcessor.Record | frontend/src/hooks/useClaimProcessor.ts:104-107 | the result is appended, and the completed nodes stay exactly the distinct nodes of the results |
| ClaimProcessor.ClaimProcessor.ProcessLine | frontend/src/hooks/useClaimProcessor.ts:96-110 | the results grow by exactly what the line contributes |
| ClaimProcessor.ClaimProcessor.ProcessLines | frontend/src/hooks/useClaimProcessor.ts:96-111 | the results grow by the lines' contributions, in line order |
| ClaimProcessor.ClaimProcessor.ReadChunk | frontend/src/hooks/useClaimProcessor.ts:88-111 | after a chunk the buffer is exactly the text after the last "\n" of everything read, and the results are exactly those of the complete lines so far |
| ClaimProcessor.ClaimProcessor.ReadStream | frontend/src/hooks/useClaimProcessor.ts:78-112 | after the read loop the buffer is the stream's unterminated last line and the results are those of all the complete lines |
| ClaimProcessor.ClaimProcessor.ReadAll | frontend/src/hooks/useClaimProcessor.ts:78-125 | the read loop and the flush of the final buffer add exactly the results of every line of the whole stream |
| ClaimProcessor.ClaimProcessor.ProcessClaim | frontend/src/hooks/useClaimProcessor.ts:31-138 | the call starts from a reset, ends not processing, and leaves the results of the whole stream; only those of its newline-terminated lines when a read rejects (no final flush); none when the status fails or there is no reader |
| ClaimProcessor.FailedReadLosesOnlyFlush | frontend/src/hooks/useClaimProcessor.ts:82-133 | a rejected read keeps a prefix of the finished stream's results, losing only the final buffer's result, so at most one |
| ClaimProcessor.DecodeLinesAppend | frontend/src/hooks/useClaimProcessor.ts:96-111 | decoding two runs of lines is decoding each in turn |
| ClaimProcessor.ChunkLines | frontend/src/hooks/useClaimProcessor.ts:89-94 | splitting buffer + chunk gives the old complete lines, then the new ones, and the same unterminated tail as splitting all the text |
| ClaimProcessor.FinalFlush | frontend/src/hooks/useClaimProcessor.ts:115-125 | decoding every line is decoding the complete ones and then the final buffer |
| ClaimProcessor.AcceptSkips | frontend/src/hooks/useClaimProcessor.ts:97-110 | a blank or unparseable line contributes nothing |
| ClaimProcessor.AcceptParsed | frontend/src/hooks/useClaimProcessor.ts:98-107 | a non-blank line whose trimmed text parses contributes exactly its parsed result |
| ClaimProcessor.SkippedLine | frontend/src/hooks/useClaimProcessor.ts:98-110 | a skipped line leaves the other lines' results as they would be without it |
| ClaimProcessor.NodesOfFacts | frontend/src/hooks/useClaimProcessor.ts:105-121 | the completed nodes never repeat, and a node is listed exactly when some result names it |
| ClaimProcessor.NodesOfGrowsAtEnd | frontend/src/hooks/useClaimProcessor.ts:105-107 | later results only append to the completed-node list; its earlier order never changes |
| BrowserStorage.LocalStorage.constructor | Frontend/fnol-flow-vision/src/contexts/ClaimContext.tsx:13-18 | the `fnol_claim_results` item starts as given |
| ClaimContext.Load | Frontend/fnol-flow-vision/src/contexts/ClaimContext.tsx:16-27 | a missing, empty or unparseable item loads as the empty map; an object loads as its entries |
| ClaimContext.Save | Frontend/fnol-flow-vision/src/contexts/ClaimContext.tsx:29-36 | the item becomes the object whose entries are exactly the map |
| ClaimContext.Fetch | Frontend/fnol-flow-vision/src/contexts/ClaimContext.tsx:64-96 | a result is always truthy; a miss leaves the map alone; there is a result exactly when the map or the stored object holds a truthy entry, the map's own entry winning; no other key changes |
| ClaimContext.ClaimProvider.constructor | Frontend/fnol-flow-vision/src/contexts/ClaimContext.tsx:39 | the map starts as what the item loads to |
| ClaimContext.ClaimProvider.HandleStorageChange | Frontend/fnol-flow-vision/src/contexts/ClaimContext.tsx:43-48 | a change to `fnol_claim_results` reloads the map from storage; any other key changes nothing |
| ClaimContext.ClaimProvider.SetClaimResult | Frontend/fnol-flow-vision/src/contexts/ClaimContext.tsx:54-62 | the map gains (or replaces) the entry, and storage holds the new map |
| ClaimContext.ClaimProvider.GetClaimResult | Frontend/fnol-flow-vision/src/contexts/ClaimContext.tsx:64-96 | the returned result and the new map are exactly `Fetch` of the old map and the stored item |
| ClaimContext.ClaimProvider.ClearClaimResult | Frontend/fnol-flow-vision/src/contexts/ClaimContext.tsx:98-105 | the entry leaves the map, and storage holds the new map |
| ClaimContext.LoadSave | Frontend/fnol-flow-vision/src/contexts/ClaimContext.tsx:16-36 | loading what was saved gives back the map |
| ClaimContext.SetThenGet | Frontend/fnol-flow-vision/src/contexts/ClaimContext.tsx:54-69 | after a truthy result is set, getting it returns it and changes nothing |
| ClaimContext.ClearThenGet | Frontend/fnol-flow-vision/src/contexts/ClaimContext.tsx:64-105 | after a clear, getting the id finds nothing, in the map or in storage |
| ClaimContext.StorageFallback | Frontend/fnol-flow-vision/src/contexts/ClaimContext.tsx:73-88 | a miss in memory that storage holds returns the stored value and copies it into the map |
| ClaimContext.MissEverywhere | Frontend/fnol-flow-vision/src/contexts/ClaimContext.tsx:69-95 | a miss in both memory and storage returns null and leaves the map alone |
| ClaimContext.ApiSaveVisibleToContext | Frontend/fnol-flow-vision/src/contexts/ClaimContext.tsx:73-88 | a result that `saveClaimToStorage` wrote is found by the context's fallback |
| ClaimContext.SetDropsStorageOnlyEntries | Frontend/fnol-flow-vision/src/contexts/ClaimContext.tsx:54-58 | setting a result rewrites storage from the map, so an entry that was only in storage is gone |
| Api.GetClaimFromStorage | Frontend/fnol-flow-vision/src/services/api.ts:134-147 | a result exactly when the stored item is an object holding a truthy entry under the id, and then that entry; null for a missing or unparseable item |
| Api.Saved | Frontend/fnol-flow-vision/src/services/api.ts:118-129 | a missing item starts from `{}` and gains the id; an unparseable item is left as it was (the error is swallowed); otherwise the keys grow by exactly the id |
| Api.SaveClaimToStorage | Frontend/fnol-flow-vision/src/services/api.ts:118-129 | the read-modify-write leaves the item as `Saved` of the old item |
| Api.GetClaimDetails | Frontend/fnol-flow-vision/src/services/api.ts:152-173 | the answer is the local lookup's: a truthy stored entry or null, with no network fallback |
| Api.SaveThenGet | Frontend/fnol-flow-vision/src/services/api.ts:118-147 | a save then a lookup of the same id returns the saved result, unless the item was unparseable or the result falsy |
| Api.SaveKeepsOthers | Frontend/fnol-flow-vision/src/services/api.ts:121-124 | a save leaves every other id's lookup unchanged |
| Api.ReplaceFirstUnderscore | Frontend/fnol-flow-vision/src/services/api.ts:56 | `replace('_', ' ')` changes exactly the first underscore into a space and leaves a string without one alone |
| Api.OnlyFirstUnderscoreReplaced | Frontend/fnol-flow-vision/src/services/api.ts:56 | a second underscore survives: `a_b_c` becomes `a b_c` |
| Api.Head | Frontend/fnol-flow-vision/src/services/api.ts:56-59 | the first four template lines start with the letter C |
| Api.Tail | Frontend/fnol-flow-vision/src/services/api.ts:62-64 | the last three template lines end with a full stop |
| Api.BodyEnds | Frontend/fnol-flow-vision/src/services/api.ts:55-64 | the template's body neither starts nor ends with white space, whatever the fields hold |
| Api.TrimTemplate | Frontend/fnol-flow-vision/src/services/api.ts:55-65 | `trim()` removes exactly the leading newline and the trailing newline and indentation around such a body |
| Api.FormatClaimDataAsText | Frontend/fnol-flow-vision/src/services/api.ts:52-66 | the trimmed text is exactly the template body, and it starts and ends with a non-space character |
| Api.MiddleLines | Frontend/fnol-flow-vision/src/services/api.ts:60-61 | both middle lines of a text shaped like the template occur in it |
| Api.BodyLines | Frontend/fnol-flow-vision/src/services/api.ts:60-61 | the body holds the police sentence and the injury sentence the fields select |
| Api.PoliceReportSentence | Frontend/fnol-flow-vision/src/services/api.ts:60 | a truthy police report puts "Police report number: N." into the text |
| Api.NoPoliceReportSentence | Frontend/fnol-flow-vision/src/services/api.ts:60 | an empty police report puts "No police report filed." into the text |
| Api.InjuriesSentence | Frontend/fnol-flow-vision/src/services/api.ts:61 | reported injuries put "Injuries were reported." into the text |
| Api.NoInjuriesSentence | Frontend/fnol-flow-vision/src/services/api.ts:61 | no injuries put "No injuries reported." into the text |
| Dashboard.Logged | Frontend/fnol-flow-vision/src/components/Dashboard.tsx:106-114 | `addLog` puts the new entry first and keeps the newest 20: the length grows by one up to the cap, and the rest is the old log minus its oldest entry once full |
| Dashboard.LogStaysCapped | Frontend/fnol-flow-vision/src/components/Dashboard.tsx:113 | after any batch of `addLog` calls the log holds at most 20 entries (exactly old plus new, below the cap), and the latest entry is first |
| Dashboard.FullLogDropsOldest | Frontend/fnol-flow-vision/src/components/Dashboard.tsx:113 | on a full log an entry evicts exactly the oldest one |
| Dashboard.LoggedSnoc | Frontend/fnol-flow-vision/src/components/Dashboard.tsx:113 | a batch of `addLog` calls followed by one more is the longer batch |
| Dashboard.LoggedTwo | Frontend/fnol-flow-vision/src/components/Dashboard.tsx:113 | two more `addLog` calls after a batch are the batch extended by both |
| Dashboard.LoggedMore | Frontend/fnol-flow-vision/src/components/Dashboard.tsx:113 | two batches of `addLog` calls in a row are one batch of both |
| Dashboard.ScoreOf | Frontend/fnol-flow-vision/src/components/Dashboard.tsx:135-136 | the number `>` compares: 0.5 for a missing or falsy score, a number itself, `true` as 1, a string through JavaScript's string-to-number conversion, an object as NaN |
| Dashboard.BackendLevel | Frontend/fnol-flow-vision/src/components/Dashboard.tsx:136 | HIGH exactly above 0.7, MEDIUM exactly in (0.4, 0.7], LOW otherwise (including a non-numeric score) |
| Dashboard.BackendStatus | Frontend/fnol-flow-vision/src/components/Dashboard.tsx:137 | the backend path rejects exactly the HIGH claims and approves the rest, never "processing" |
| Dashboard.FallbackLevel | Frontend/fnol-flow-vision/src/components/Dashboard.tsx:174 | the local fallback by amount: HIGH exactly above 10000, MEDIUM exactly in (3000, 10000], LOW otherwise |
| Dashboard.MissingScoreIsMedium | Frontend/fnol-flow-vision/src/components/Dashboard.tsx:135-137 | a result without a risk score is MEDIUM and approved |
| Dashboard.NumericStringScoreCoerced | Frontend/fnol-flow-vision/src/components/Dashboard.tsx:135-137 | a score sent as a string whose number exceeds 0.7 (such as "0.8") is HIGH and rejected |
| Dashboard.BackendScoresAllHigh | Frontend/fnol-flow-vision/src/components/Dashboard.tsx:135-137 | every backend risk score 1..10 is above 0.7, so every scored claim is HIGH and rejected on this path |
| Dashboard.GeneratedId | Frontend/fnol-flow-vision/src/components/Dashboard.tsx:127 | a generated id is `CLM-2024-` and three digits, twelve characters in all |
| Dashboard.NewItem | Frontend/fnol-flow-vision/src/components/Dashboard.tsx:126-208 | the new history entry keeps the submitted type, amount and customer; on the backend path its level comes from the score and it is decided, otherwise it is "processing" with the amount's level |
| Dashboard.BackendLogs | Frontend/fnol-flow-vision/src/components/Dashboard.tsx:152-161 | the backend path logs the assessment and category, the tier and path when present, and the decision: three to five lines |
| Dashboard.OutcomeLogs | Frontend/fnol-flow-vision/src/components/Dashboard.tsx:150-211 | each outcome writes two to five lines after the opening pair |
| Dashboard.SubmissionLogs | Frontend/fnol-flow-vision/src/components/Dashboard.tsx:118-211 | a submission writes four to seven log lines |
| Dashboard.SubmissionLogsBracketed | Frontend/fnol-flow-vision/src/components/Dashboard.tsx:118-211 | the log opens with the submission and connection lines and closes with the line naming the new claim: its decision, a manual review after an invalid response, or offline review after an error |
| Dashboard.Dashboard.constructor | Frontend/fnol-flow-vision/src/components/Dashboard.tsx:33-86 | one "System initialized" entry, the four sample claims, 1247 processed, not loading, modal closed, no result |
| Dashboard.Dashboard.AddLog | Frontend/fnol-flow-vision/src/components/Dashboard.tsx:106-114 | the log becomes `Logged` of the old log |
| Dashboard.Dashboard.HandleSubmitClaim | Frontend/fnol-flow-vision/src/components/Dashboard.tsx:116-216 | one new history entry on top; the log gains exactly the submission's lines; the count rises only on the backend path; the context map and the stored item gain the result exactly on the backend path; loading ends and the modal closes |
| Dashboard.Dashboard.Submit | Frontend/fnol-flow-vision/src/components/Dashboard.tsx:117-212 | the same state change as the handler, without the loading and modal flags |
| Dashboard.Dashboard.Open | Frontend/fnol-flow-vision/src/components/Dashboard.tsx:118-122 | the two opening log lines are added |
| Dashboard.Dashboard.Process | Frontend/fnol-flow-vision/src/components/Dashboard.tsx:120-212 | the outcome's state change: history, log, count, context and stored result as for the handler |
| Dashboard.Dashboard.Fallback | Frontend/fnol-flow-vision/src/components/Dashboard.tsx:168-211 | without the backend path: a "processing" entry on top and the failure lines logged, nothing stored |
| Dashboard.Dashboard.Backend | Frontend/fnol-flow-vision/src/components/Dashboard.tsx:124-167 | on the backend path: the result stored under the claim id in the context and the store, the entry on top, the result lines logged, the count up by one |
| Dashboard.Dashboard.Store | Frontend/fnol-flow-vision/src/components/Dashboard.tsx:130-131 | the context map gains the result under the id and the stored item mirrors the map |
| Dashboard.Dashboard.LogBackend | Frontend/fnol-flow-vision/src/components/Dashboard.tsx:151-161 | the log gains exactly the backend path's lines |
| Dashboard.BackendClaimKeepsItsId | Frontend/fnol-flow-vision/src/components/Dashboard.tsx:126-131 | a backend claim with a non-empty string `claim_id` is filed, stored and listed under that id |
| Dashboard.OtherClaimsGetGeneratedId | Frontend/fnol-flow-vision/src/components/Dashboard.tsx:127 | a backend claim without a usable id, and every fallback claim, gets a generated `CLM-2024-` id of twelve characters |
| Dashboard.Dashboard.LogRouting | Frontend/fnol-flow-vision/src/components/Dashboard.tsx:154-159 | the log gains the tier line and the path line, each exactly when the routing decision holds it |
| ClaimSubmissionModal.Message | Frontend/fnol-flow-vision/src/components/ClaimSubmissionModal.tsx:51-59 | every validation message is non-empty |
| ClaimSubmissionModal.FormErrors | Frontend/fnol-flow-vision/src/components/ClaimSubmissionModal.tsx:48-63 | an error exactly for each failing rule: no type; an amount that is empty, not a number or not positive; a blank description, customer id, policy number or location; no date; the form is valid exactly when there are none |
| ClaimSubmissionModal.EmptyFormFailsEverywhere | Frontend/fnol-flow-vision/src/components/ClaimSubmissionModal.tsx:23-33 | the initial form fails every one of the seven rules |
| ClaimSubmissionModal.FormPayload | Frontend/fnol-flow-vision/src/components/ClaimSubmissionModal.tsx:68-71 | a valid form is submitted with its fields as entered and the amount converted to a positive number |
| ClaimSubmissionModal.FieldOf | Frontend/fnol-flow-vision/src/components/ClaimSubmissionModal.tsx:89-90 | reading a field gives a value of that field's kind |
| ClaimSubmissionModal.SetField | Frontend/fnol-flow-vision/src/components/ClaimSubmissionModal.tsx:90 | the changed field reads back as the new value and every other field is unchanged |
| ClaimSubmissionModal.ClearedError | Frontend/fnol-flow-vision/src/components/ClaimSubmissionModal.tsx:91-93 | the error keys stay the same, the changed field's message becomes empty and the other messages stay |
| ClaimSubmissionModal.Or | Frontend/fnol-flow-vision/src/components/ClaimSubmissionModal.tsx:101-109 | `x or fallback` in JavaScript's sense: the value when truthy, the fallback otherwise |
| ClaimSubmissionModal.First200 | Frontend/fnol-flow-vision/src/components/ClaimSubmissionModal.tsx:105 | `substring(0, 200)`: a prefix of at most 200 characters, the whole string when it is no longer |
| ClaimSubmissionModal.TextPayload | Frontend/fnol-flow-vision/src/components/ClaimSubmissionModal.tsx:113-123 | text that does not parse is submitted as the description, with type "other", amount 0, "N/A" ids and location, no report, no injuries and the current date |
| ClaimSubmissionModal.DumpPayload | Frontend/fnol-flow-vision/src/components/ClaimSubmissionModal.tsx:96-124 | a parse failure or a null parse (whose property read throws) takes the text payload; any other parsed value takes the JSON payload |
| ClaimSubmissionModal.JsonPayload | Frontend/fnol-flow-vision/src/components/ClaimSubmissionModal.tsx:100-110 | each parsed field when truthy, each fallback otherwise; the description falls back to the first 200 characters of the text, the date to now, the amount to 0 |
| ClaimSubmissionModal.JsonWithoutDescription | Frontend/fnol-flow-vision/src/components/ClaimSubmissionModal.tsx:105 | a parsed object without a truthy description is described by the first 200 characters of the text |
| ClaimSubmissionModal.JsonNonObjectUsesFallbacks | Frontend/fnol-flow-vision/src/components/ClaimSubmissionModal.tsx:100-110 | a parsed number, string, boolean or array takes the fallbacks for every field |
| ClaimSubmissionModal.Modal.constructor | Frontend/fnol-flow-vision/src/components/ClaimSubmissionModal.tsx:23-37 | the empty form, no errors, no dump text, the form tab, nothing submitted |
| ClaimSubmissionModal.Modal.ValidateForm | Frontend/fnol-flow-vision/src/components/ClaimSubmissionModal.tsx:48-63 | the errors become the form's error map and the answer is whether it is valid |
| ClaimSubmissionModal.Modal.HandleSubmit | Frontend/fnol-flow-vision/src/components/ClaimSubmissionModal.tsx:65-87 | a valid form is submitted once and reset with its errors cleared; an invalid one submits nothing, keeps its fields and shows its errors |
| ClaimSubmissionModal.Modal.HandleChange | Frontend/fnol-flow-vision/src/components/ClaimSubmissionModal.tsx:89-94 | the field takes the new value and its error, if any, is cleared |
| ClaimSubmissionModal.Modal.HandleDumpSubmit | Frontend/fnol-flow-vision/src/components/ClaimSubmissionModal.tsx:96-127 | the dump's payload is submitted once, the text is cleared and the form tab shown |
| SubmitClaimModal.TextOr | src/components/dashboard/SubmitClaimModal.tsx:57-63 | `parsed.x or ''`: empty for a missing or falsy field, the string itself for a string field |
| SubmitClaimModal.AmountText | src/components/dashboard/SubmitClaimModal.tsx:58 | `parsed.amount?.toString() or ''`: empty for a missing or null amount, the string itself for a string amount |
| SubmitClaimModal.JsonForm | src/components/dashboard/SubmitClaimModal.tsx:56-65 | a parsed value that is not an object empties every field; each text field is the property's string, its text for another truthy value, or empty when missing or falsy; the amount is empty for a missing or null amount, the string itself, or the text of any other value; injuries are set exactly when `has_injuries` is truthy |
| SubmitClaimModal.Underscored | src/components/dashboard/SubmitClaimModal.tsx:75 | `replace(/\s+/g, '_')`: no white space is left, a key without any is unchanged, and the key never grows |
| SubmitClaimModal.UnderscoredRun | src/components/dashboard/SubmitClaimModal.tsx:75 | a run of white space up to a non-space or the end becomes exactly one `_` |
| SubmitClaimModal.UnderscoredWord | src/components/dashboard/SubmitClaimModal.tsx:75 | text without white space is copied through unchanged, and what follows is underscored on its own |
| SubmitClaimModal.AmountChars | src/components/dashboard/SubmitClaimModal.tsx:79 | `replace(/[^0-9.]/g, '')`: only digits and dots are left, a value of only those is unchanged, a single other character is dropped, and it never grows |
| SubmitClaimModal.AmountCharsAppend | src/components/dashboard/SubmitClaimModal.tsx:79 | stripping a concatenation strips each part in turn, so the kept characters come out in the order they went in |
| SubmitClaimModal.AmountLineKeepsDigits | src/components/dashboard/SubmitClaimModal.tsx:79 | an amount line whose key does not also name the type supplies the digits and dots of its trimmed value |
| SubmitClaimModal.InjuryLineAnswer | src/components/dashboard/SubmitClaimModal.tsx:85 | an injuries line whose key names no earlier field sets the flag exactly when the trimmed value holds "yes" or "true" in any case |
| SubmitClaimModal.AmountCharsIdempotent | src/components/dashboard/SubmitClaimModal.tsx:79 | stripping the amount twice is stripping it once |
| SubmitClaimModal.AmountCharsSubsequence | src/components/dashboard/SubmitClaimModal.tsx:79 | the stripped amount holds no character the value did not |
| SubmitClaimModal.ExtractLine | src/components/dashboard/SubmitClaimModal.tsx:72-86 | a line without a colon, or whose colon is its first character, extracts nothing |
| SubmitClaimModal.ColonlessLinesExtractNothing | src/components/dashboard/SubmitClaimModal.tsx:69-87 | text none of whose lines holds a colon extracts no field at all |
| SubmitClaimModal.TypeBeatsAmount | src/components/dashboard/SubmitClaimModal.tsx:78-79 | a key containing "type" sets the type from the trimmed value, even when it also contains "amount" |
| SubmitClaimModal.DescriptionLine | src/components/dashboard/SubmitClaimModal.tsx:80 | a description line whose key names neither type nor amount sets the description to the trimmed value |
| SubmitClaimModal.CustomerLine | src/components/dashboard/SubmitClaimModal.tsx:81 | a customer line whose key names no earlier field sets the customer id to the trimmed value |
| SubmitClaimModal.PolicyLine | src/components/dashboard/SubmitClaimModal.tsx:82 | a policy line whose key names no earlier field sets the policy number to the trimmed value |
| SubmitClaimModal.LocationLine | src/components/dashboard/SubmitClaimModal.tsx:83 | a location line whose key names no earlier field sets the location to the trimmed value |
| SubmitClaimModal.PoliceLine | src/components/dashboard/SubmitClaimModal.tsx:84 | a police line whose key names no earlier field sets the police report to the trimmed value |
| SubmitClaimModal.UnnamedKeyLine | src/components/dashboard/SubmitClaimModal.tsx:77-85 | a line whose key names none of the eight fields leaves the extraction as it was |
| SubmitClaimModal.Merge | src/components/dashboard/SubmitClaimModal.tsx:89 | `{...prev, ...extracted}`: each of the eight extracted fields replaces the form's, every field not extracted stays |
| SubmitClaimModal.ParsedDump | src/components/dashboard/SubmitClaimModal.tsx:53-90 | a dump that parses to a non-null value fills the form from the JSON and sets the date exactly when the value has a truthy `date`; one that does not parse (or parses to null) merges the fields extracted line by line, keeping the date |
| SubmitClaimModal.Assess | src/components/dashboard/SubmitClaimModal.tsx:106-118 | a score exactly when the amount is a number: `min(10, floor(amount/10000) + 3 if injured)` for a claim above 50000 or injured, `min(6, floor(amount/5000) + 1)` otherwise; HIGH exactly for a serious claim scoring 7 or more, MEDIUM exactly for a score of 4 or more that is not HIGH; critical exactly for a serious claim scoring 8 or more, urgent exactly for one scoring 5 to 7 |
| SubmitClaimModal.InjuriesWithLargeAmountAreHigh | src/components/dashboard/SubmitClaimModal.tsx:111-113 | an injured claim of 40000 or more is HIGH |
| SubmitClaimModal.SeriousScoreMonotone | src/components/dashboard/SubmitClaimModal.tsx:111-112 | among serious claims with the same injury flag, a larger amount never scores lower |
| SubmitClaimModal.ScoreFallsAcrossThreshold | src/components/dashboard/SubmitClaimModal.tsx:111-116 | the score drops from 6 at 50000 to 5 at 50001 without injuries: the serious formula restarts below the simple one |
| SubmitClaimModal.Tier | src/components/dashboard/SubmitClaimModal.tsx:132 | "Senior" exactly for HIGH and "Junior" exactly for LOW |
| SubmitClaimModal.ClaimOf | src/components/dashboard/SubmitClaimModal.tsx:120-134 | the submitted claim is new, at intake, carries the form's fields and parsed amount, the assessment of that amount and injuries, and the tier of its level |
| SubmitClaimModal.Modal.constructor | src/components/dashboard/SubmitClaimModal.tsx:36-48 | the empty form, no date, the form tab, no dump text, nothing submitted |
| SubmitClaimModal.Modal.HandleDumpParse | src/components/dashboard/SubmitClaimModal.tsx:50-91 | blank dump text changes nothing; otherwise the form and date become those the parsed dump gives |
| SubmitClaimModal.Modal.ExtractAll | src/components/dashboard/SubmitClaimModal.tsx:69-87 | the `forEach` over the lines leaves `extracted` equal to the line-by-line extraction of all of them |
| SubmitClaimModal.Modal.AssessRisk | src/components/dashboard/SubmitClaimModal.tsx:106-118 | the risk block, starting from 1, LOW and normal and overwriting them in its branches, gives exactly the assessment `Assess` specifies |
| SubmitClaimModal.Modal.HandleSubmit | src/components/dashboard/SubmitClaimModal.tsx:93-152 | with dump text in dump mode only the parse happens; a form missing its type, amount, customer or policy submits nothing and changes nothing; otherwise the claim is submitted once and everything is reset |
| ProcessingPipeline.GetStageStatus | Frontend/fnol-flow-vision/src/components/ProcessingPipeline.tsx:31-45 | no claim leaves every stage waiting; a stage is complete exactly when the claim has completed it (or it is the final stage of a finished claim), active exactly when not complete but current (or the first stage of a processing claim); "error" is never returned |
| ProcessingPipeline.StageClasses | Frontend/fnol-flow-vision/src/components/ProcessingPipeline.tsx:47-58 | the error styling is what a stage in error gets, and no other status gets it |
| ProcessingPipeline.ErrorStylingUnused | Frontend/fnol-flow-vision/src/components/ProcessingPipeline.tsx:31-58 | no stage is ever styled as an error |
| ProcessingPipeline.FinalStageComplete | Frontend/fnol-flow-vision/src/components/ProcessingPipeline.tsx:34-36 | a finished claim shows its final stage complete |
| ProcessingPipeline.CompletedBeatsCurrent | Frontend/fnol-flow-vision/src/components/ProcessingPipeline.tsx:34-42 | a stage both completed and current shows complete |
| ProcessingPipeline.FirstStageActiveWhileProcessing | Frontend/fnol-flow-vision/src/components/ProcessingPipeline.tsx:39-41 | the first stage of a processing claim that has not completed it is active |
| ClaimPipeline.GetStageStatus | Frontend/src/components/dashboard/ClaimPipeline.tsx:21-28 | no claim leaves every stage waiting; otherwise complete exactly for completed agents, processing exactly for the current agent not yet completed, error exactly for the rest of a failed claim |
| ClaimPipeline.StageStatuses | Frontend/src/components/dashboard/ClaimPipeline.tsx:12-18 | one status per stage, each the status of that stage's agent |
| ClaimPipeline.NoClaimAllWaiting | Frontend/src/components/dashboard/ClaimPipeline.tsx:22 | with no active claim every stage waits |
| ClaimPipeline.NewAndIntakeAgree | Frontend/src/components/dashboard/ClaimPipeline.tsx:13-14 | the New Claim and Intake stages share the intake agent, so they always show the same status |
| ClaimPipeline.ProcessingStagesShareAgent | Frontend/src/components/dashboard/ClaimPipeline.tsx:25 | any two processing stages belong to the claim's current agent |
| ClaimPipeline.FailedClaimNothingWaits | Frontend/src/components/dashboard/ClaimPipeline.tsx:24-27 | a failed claim leaves no stage waiting |
| ClaimRecord.Stamped | Frontend/src/pages/Index.tsx:40-46 | the stored claim is the submitted data plus the id and timestamp given, no completed agents and zero processing time; removing those gives back the data |
| ClaimRecord.Filter | src/pages/Claims.tsx:21-27 | `Array.filter`: an order-preserving sub-list holding exactly the claims the test keeps, each as often as the list does |
| ClaimRecord.FilterAll | src/pages/Claims.tsx:21 | a test every claim passes keeps the whole list |
| ClaimRecord.FilterNarrows | src/pages/Claims.tsx:21-27 | a stricter test keeps a sub-list of what a looser one keeps |
| Common.SubListSkip | src/pages/Claims.tsx:21 | a sub-list stays one when an element is put in front of the list |
| Common.SubListTail | src/pages/Claims.tsx:21 | dropping the first element of a sub-list leaves a sub-list |
| ClaimRecord.MatchesSearch | src/pages/Claims.tsx:22-24 | the search test on id, customer and type (the same test as src/components/dashboard/ClaimHistory.tsx lines 26-28): an empty search matches every claim |
| ClaimsPage.MatchesStatus | src/pages/Claims.tsx:25 | the filter 'all' passes every claim; any other filter passes exactly the claims with that status |
| ClaimRecord.LongerSearchNarrows | src/pages/Claims.tsx:22-24 | a claim that matches a search also matches any part of it |
| JsValue.Prop | Frontend/fnol-flow-vision/src/components/Dashboard.tsx:134 | optional property access: a value exactly when the object holds the key, and then that entry |
| IndexPage.Padded | Frontend/src/pages/Index.tsx:39 | `String(n).padStart(3, '0')`: digits only, reading back as the number, three of them below 1000 and never fewer |
| IndexPage.NewClaimId | Frontend/src/pages/Index.tsx:39 | the new id is `CLM-2024-` and the list length plus one, padded to three digits |
| IndexPage.NewClaimIdsDiffer | Frontend/src/pages/Index.tsx:39 | lists of different lengths give different ids |
| IndexPage.IndexPage.constructor | Frontend/src/pages/Index.tsx:16-20 | the sample claims, the first of them active (none for an empty list), the modal closed |
| IndexPage.IndexPage.HandleSubmitClaim | Frontend/src/pages/Index.tsx:38-51 | the stamped claim is put first and made active, the rest of the list is unchanged, the modal closes |
| ClaimsPage.FilteredClaims | src/pages/Claims.tsx:21-27 | an order-preserving sub-list holding exactly the claims that match the search in id, customer or type and the status filter, each as often as the list does |
| ClaimsPage.HandleSubmitClaim | src/pages/Claims.tsx:29-39 | the new claim, stamped `CLM-` and the time in milliseconds, goes on top of the unchanged list; the modal closes; search and filter stay |
| ClaimsPage.UnfilteredShowsAll | src/pages/Claims.tsx:21-27 | with no search and the "all" filter every claim is shown in order |
| ClaimsPage.StatusFilterExact | src/pages/Claims.tsx:25 | under a status filter only claims of that status are shown |
| ClaimsPage.SubmittedClaimOnTop | src/pages/Claims.tsx:21-37 | a new claim the current search and filter show appears at the top of the shown list, above what was shown before |
| ClaimHistory.FilteredClaims | src/components/dashboard/ClaimHistory.tsx:25-29 | an order-preserving sub-list holding exactly the claims that match the search, each as often as the list does |
| ClaimHistory.Insert | src/components/dashboard/ClaimHistory.tsx:31-40 | one insertion step of the sort adds the claim and loses nothing |
| ClaimHistory.InsertKeepsOrder | src/components/dashboard/ClaimHistory.tsx:31-40 | inserting into a list in descending key order keeps it in that order |
| ClaimHistory.SortDescending | src/components/dashboard/ClaimHistory.tsx:31-40 | the sort puts the list in descending key order and is a permutation of it |
| ClaimHistory.SortedClaims | src/components/dashboard/ClaimHistory.tsx:25-40 | the shown list is a permutation of the filtered list in descending order of the chosen key |
| ClaimHistory.EmptySearchKeepsAll | src/components/dashboard/ClaimHistory.tsx:25-29 | an empty search keeps every claim in order |
| ClaimHistory.LongerSearchNarrowsList | src/components/dashboard/ClaimHistory.tsx:25-29 | extending the search text never brings in a claim a shorter search did not show |
| ClaimHistory.ByAmountDescending | src/components/dashboard/ClaimHistory.tsx:33-34 | sorted by amount, an earlier claim never has a smaller amount than a later one |
| ClaimHistory.ByRiskDescending | src/components/dashboard/ClaimHistory.tsx:35-36 | sorted by risk, an earlier claim never has a lower score than a later one |
| ClaimHistory.ByDateNewestFirst | src/components/dashboard/ClaimHistory.tsx:37-38 | sorted by date (the default), an earlier claim is never older than a later one |
| ClaimHistory.SortKeepsCount | src/components/dashboard/ClaimHistory.tsx:31 | sorting neither adds nor drops claims |
| AlertsPage.DismissAlert | src/pages/Alerts.tsx:74-78 | same length; an alert is dismissed afterwards exactly when it was before or has the id; nothing else about any alert changes |
| AlertsPage.DismissAllAlerts | src/pages/Alerts.tsx:80-82 | same length, every alert dismissed, nothing else changed |
| AlertsPage.ActiveAlerts | src/pages/Alerts.tsx:84 | the alerts not dismissed, in order: a sub-sequence of the list holding each active alert as often as the list does and no dismissed one |
| AlertsPage.ErrorCount | src/pages/Alerts.tsx:114 | the number of active error alerts, the same whether the active alerts are taken first or the error alerts; at most the number of active alerts |
| AlertsPage.WarningCount | src/pages/Alerts.tsx:115 | the number of active warning alerts, the same whether the active alerts are taken first or the warning alerts; at most the number of active alerts |
| AlertsPage.OfType | src/pages/Alerts.tsx:114-115 | the alerts of the given type, in order: a sub-sequence holding each such alert as often as the list does and no other |
| AlertsPage.WithoutId | src/pages/Alerts.tsx:74-78 | the alerts without the given id, in order: a sub-sequence keeping each other alert as often as the list does |
| AlertsPage.DismissIdempotent | src/pages/Alerts.tsx:74-78 | dismissing the same id twice is dismissing it once |
| AlertsPage.DismissDismissedUnchanged | src/pages/Alerts.tsx:74-78 | dismissing an id whose alerts are all dismissed changes nothing |
| AlertsPage.DismissAllLeavesNoneActive | src/pages/Alerts.tsx:80-84 | after dismissing all no alert is active |
| AlertsPage.AllDismissedNoneActive | src/pages/Alerts.tsx:84 | a list of dismissed alerts has no active ones |
| AlertsPage.DismissRemovesFromActive | src/pages/Alerts.tsx:74-84 | dismissing an id removes exactly that id's alerts from the active list, in order |
| AlertsPage.NoneDismissedAllActive | src/pages/Alerts.tsx:84 | with nothing dismissed every alert is active, in order |
| AlertsPage.TypeCountsAddUp | src/pages/Alerts.tsx:9-16 | every alert is of exactly one of the three types |
| AlertsPage.CountsWithinActive | src/pages/Alerts.tsx:112-115 | the error and warning counts together never exceed the active count |
| AlertsPage.ActiveOfTypeCommute | src/pages/Alerts.tsx:84-115 | the active alerts of a type are the alerts of that type that are active, so the error and warning counts count exactly those |
| AlertsPage.InitialAllActive | src/pages/Alerts.tsx:18-54 | all four sample alerts start active |

## Left out

- **HTTP and network calls.** `processClaimData`, `checkHealth`, the `fetch` calls and the stream reader are I/O. The dashboard takes the call's outcome as a parameter. The stream hook takes the status, whether a reader exists, the decoded chunks delivered, and whether the read after them rejects as parameters. The FastAPI apps and routes are not part of this model.
- **Language-model and agent execution.** `create_react_agent`, `.invoke`, `chain.ainvoke`/`astream` and the LangGraph runtime are nondeterministic foreign calls. Their replies are parameters. nodes/intake_node.py is not part of this model, so the orchestrator's selector is proved for every state, not only the states that node produces.
- **Parsing and validation libraries.** `json.loads`, `JSON.parse`, `JSON.stringify` and pydantic are parameters or are abstracted away. The storage item is kept as what `JSON.parse` makes of it.
- **Clocks and randomness.** `Date`, `Date.now`, `new Date().toISOString()` and `Math.random` are parameters.
- **The processing-time ticker.** The `setInterval` of Frontend/src/pages/Index.tsx is a timer with no contract.
- **Log entry ids and timestamps.** The dashboard's `addLog` takes these from the clock, so they are left out. The log keeps each message as a datatype, and `MessageText` gives the exact text `addLog` is passed.
- **Console output and toasts.** These have no effect on state.
- **Number formatting.** `toFixed`, the rendering of a JSON value inside a template string, and `toString` are parameters (`percent`, `render`, `toText`).
- **Floating point.** Amounts and scores are exact reals. Infinity and float rounding are not modelled. NaN appears only where the source tests for it: `Number`, `parseFloat`, the dashboard score and the submit form's score.
- **Concurrency.** Races between tabs on the shared storage item, and React's render scheduling, are not modelled. State updates apply immediately, in call order.
- **Unicode.** Strings are sequences of characters. UTF-16 surrogate pairs are not modelled, including the ones `substring(0, 200)` could split.
- Text.ToLower: lowers ASCII letters only, where `toLowerCase` also lowers other scripts.
- ClaimSubmissionModal.Modal.HandleChange: requires the value to be of the field's kind (text, a date or nothing, a flag). JavaScript would store any value.
- SubmitClaimModal.TextOr: a truthy field that is not a string is kept as its text `toText(v)`, where the form would hold the value itself.
- SubmitClaimModal.JsonForm: `has_injuries` is kept as its truthiness, where the form would hold the parsed value itself.
- Dashboard.ScoreOf: an array score is read as NaN, where JavaScript compares a one-element array as its element's text.
- RiskAnalyzeNode.RiskAssessmentAgent: only a missing `claim_id` raises KeyError. The other five keys the node reads (`amount`, `previous_claims_count`, `customer_tenure_days`, `injuries_reported`, `other_party_involved`) are always present in the model's state, so their KeyError is not modelled.
- ClaimContext.Load: a stored JSON array or string loads as the empty map, where `Object.entries` would list its index keys. The storage cell keeps only objects, so `Api.Saved` does not model spreading such a value into index keys either.
- Dashboard.NewItem: a truthy non-string `claim_id` from the backend is not modelled; such a claim takes the generated id.
- ClaimHistory.SortedClaims: states order and permutation but not stability, so the order of claims with equal keys is not stated. The `claims` prop is a value here, so that sorting leaves it unreordered holds trivially rather than being proved.
- ClaimHistory.ByDateNewestFirst: `time` is a parameter, and invalid dates (NaN times) are not modelled.
- BackendOrchestrator.Orchestrate: the graph is taken to hand the same state object to all three wrappers, so every entry of `d` is that object. If the framework gives each node its own dict and shares only the `logs` list, an entry would show later stages' log lines but not their results. That variant is not modelled.
- ChatAi.ChatSession.AskStream: streams that overlap in time are not modelled. Each call runs to its end or to the consumer's stop before the next call starts. So the race in which two streams read the same old history and both append is not captured.
- RiskAgent.ToolText and RoutingAgent.ToolText: `describe` receives only the kind of failure, so the error text does not name the offending operand types or value as `str(e)` does.
