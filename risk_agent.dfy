/**
 * Backend/Agents/risk_agent.py: the `assess_risk` tool and the marker split
 * of `risk_agent_node`. The tool cuts the JSON object out of its text
 * argument, reads the claim fields with defaults, and scores them with the
 * same five rules as the graph's risk node, worded slightly differently.
 */
module RiskAgent {
  import opened Common
  import opened Text
  import opened AgentText
  import opened RiskAnalyzeNode

  const Marker := "RISK_ASSESSMENT:"

  /** The reason texts of the tool: two of the five differ from the node's. */
  function AgentReason(rule: Rule): string
  {
    match rule
    case HighAmount => "High claim amount (> $50,000)"
    case SoloInjury => "Injuries reported with no other party involved"
    case _ => Reason(rule)
  }

  /** Why the tool's `try` block raised after the JSON was parsed. */
  datatype Failure =
    | NotAnObject     // `claim.get` on a parsed value that is not a dict
    | NotComparable   // a field compared with an int is not a number (TypeError)
    | InvalidClaimId  // pydantic rejects the claim id as a `str` field

  /** What the tool computes before it renders its string result. */
  datatype Outcome =
    | Assessed(report: RiskReport)
    | NoJson                  // no '{' or no '}' in the argument
    | BadJson(message: string) // json.loads raised JSONDecodeError with this message
    | Failed(why: Failure)

  /**
   * The facts the rules read from the parsed claim: the three numeric
   * fields default to 0 and the two flags to False; None when one of the
   * numeric fields is not something Python can compare with an int.
   */
  function ClaimFacts(claim: map<string, Json>): (r: Option<RiskFacts>)
    ensures r.None? <==>
      PyNumber(Get(claim, "amount", JNum(0.0))).None?
      || PyNumber(Get(claim, "previous_claims_count", JNum(0.0))).None?
      || PyNumber(Get(claim, "customer_tenure_days", JNum(0.0))).None?
    ensures r.Some? && "amount" !in claim ==> r.value.amount == 0.0
    ensures r.Some? && "previous_claims_count" !in claim ==> r.value.previousClaims == 0.0
    ensures r.Some? && "customer_tenure_days" !in claim ==> r.value.tenureDays == 0.0
    ensures r.Some? && "injuries_reported" !in claim ==> !r.value.injuries
    ensures r.Some? && "other_party_involved" !in claim ==> !r.value.otherParty
  {
    var amount := PyNumber(Get(claim, "amount", JNum(0.0)));
    var previous := PyNumber(Get(claim, "previous_claims_count", JNum(0.0)));
    var tenure := PyNumber(Get(claim, "customer_tenure_days", JNum(0.0)));
    if amount.None? || previous.None? || tenure.None? then None
    else
      Some(RiskFacts(amount.value, previous.value, tenure.value,
        Truthy(Get(claim, "injuries_reported", JBool(false))),
        Truthy(Get(claim, "other_party_involved", JBool(false)))))
  }

  /** The report the tool computes for a claim id and its facts. */
  function AgentReport(claimId: string, f: RiskFacts): RiskReport
  {
    var s := Cap(RawScore(f));
    RiskReport(claimId, s, Category(s), Texts(AgentReason, Fired(f)))
  }

  /**
   * The tool from its argument to its outcome. `loads` is `json.loads`;
   * `asStr` is pydantic's validation of the `claim_id: str` field.
   */
  function Assessment(claimData: string, loads: Loads, asStr: Json -> Option<string>): (r: Outcome)
    ensures r.NoJson? <==> '{' !in claimData || '}' !in claimData
    ensures r.BadJson? ==> loads(BraceWindow(claimData).value) == Err(r.message)
    ensures r.Assessed? ==>
      1 <= r.report.riskScore <= 10 && r.report.category == Category(r.report.riskScore)
    ensures r.Assessed? || r.Failed? <==> ParsedWindow(claimData, loads).Some?
    ensures ParsedWindow(claimData, loads).Some? ==>
      var claim := ParsedWindow(claimData, loads).value;
      (r == Failed(NotAnObject) <==> !claim.JObject?)
      && (r == Failed(NotComparable) <==> claim.JObject? && ClaimFacts(claim.fields).None?)
      && (r == Failed(InvalidClaimId) <==>
            claim.JObject? && ClaimFacts(claim.fields).Some? && asStr(Get(claim.fields, "claim_id", JStr("unknown"))).None?)
      && (r.Assessed? ==>
            r.report == AgentReport(asStr(Get(claim.fields, "claim_id", JStr("unknown"))).value, ClaimFacts(claim.fields).value))
  {
    match BraceWindow(claimData)
    case None => NoJson
    case Some(window) =>
      match loads(window)
      case Err(message) => BadJson(message)
      case Ok(claim) =>
        if !claim.JObject? then Failed(NotAnObject)
        else
          match ClaimFacts(claim.fields)
          case None => Failed(NotComparable)
          case Some(f) =>
            match asStr(Get(claim.fields, "claim_id", JStr("unknown")))
            case None => Failed(InvalidClaimId)
            case Some(claimId) => Assessed(AgentReport(claimId, f))
  }

  /**
   * `assess_risk` up to its string result: the window, the parse, the
   * field reads, then the step-by-step scoring body shared with the node
   * under this tool's wording. The source validates the claim id after
   * scoring; scoring has no effect, so the order does not show.
   */
  method AssessRisk(claimData: string, loads: Loads, asStr: Json -> Option<string>) returns (out: Outcome)
    ensures out == Assessment(claimData, loads, asStr)
  {
    var window := BraceWindow(claimData);
    if window.None? {
      return NoJson;
    }
    var parsed := loads(window.value);
    if parsed.Err? {
      return BadJson(parsed.error);
    }
    var claim := parsed.value;
    if !claim.JObject? {
      return Failed(NotAnObject);
    }
    var facts := ClaimFacts(claim.fields);
    if facts.None? {
      return Failed(NotComparable);
    }
    var claimId := asStr(Get(claim.fields, "claim_id", JStr("unknown")));
    if claimId.None? {
      return Failed(InvalidClaimId);
    }
    var report := Score(claimId.value, facts.value, AgentReason);
    out := Assessed(report);
  }

  /**
   * The string the tool returns. `serialize` is pydantic's `.json()` and
   * `describe` is `str(e)` of the exception that was raised. `describe`
   * sees only the kind of failure, so the text is coarser than `str(e)`,
   * which also names the offending operand types or field: two claims
   * failing the same way get the same text here.
   */
  function ToolText(out: Outcome, serialize: RiskReport -> string, describe: Failure -> string): (t: string)
    ensures out.Assessed? ==> t == Marker + " " + serialize(out.report)
  {
    match out
    case Assessed(report) => Marker + " " + serialize(report)
    case NoJson => "ERROR: Could not parse claim data. Expected JSON format."
    case BadJson(message) => "ERROR: Invalid JSON format - " + message
    case Failed(why) => "ERROR: Risk assessment failed - " + describe(why)
  }

  /**
   * `risk_agent_node` after the agent has run: the final message's text
   * after "RISK_ASSESSMENT: " is loaded, a decode failure gives the raw
   * content, a message without the marker gives the error dict.
   */
  function RiskAgentNode(final: string, loads: Loads): (r: Reply)
    ensures r.ErrorDict? <==> !Contains(final, Marker)
    ensures r.Raised? <==> Contains(final, Marker) && !Contains(final, Marker + " ")
    ensures r.Parsed? ==> exists p :: SecondPiece(final, Marker + " ") == Some(p) && loads(p) == Ok(r.value)
    ensures Contains(final, Marker + " ") ==>
      var piece := SecondPiece(final, Marker + " ").value;
      (loads(piece).Ok? ==> r == Parsed(loads(piece).value)) && (loads(piece).Err? ==> r == RawContent(piece))
  {
    MarkedReply(final, Marker, loads, true)
  }

  // ------------------------------------------------------------ properties

  /** The tool's wording differs from the node's exactly for the high-amount and the solo-injury rule. */
  lemma AgentReasonDiffers(rule: Rule)
    ensures AgentReason(rule) == Reason(rule) <==> rule != HighAmount && rule != SoloInjury
  {
    match rule
    case HighAmount => assert |AgentReason(rule)| != |Reason(rule)|;
    case SoloInjury => assert |AgentReason(rule)| != |Reason(rule)|;
    case _ =>
  }

  /**
   * For the same facts the tool and the node give the same score and
   * category and one reason per fired rule in the same order; a reason's
   * text differs exactly where the rule is the high-amount or the
   * solo-injury rule.
   */
  lemma AgentAgreesWithNode(claimId: string, f: RiskFacts)
    ensures AgentReport(claimId, f).riskScore == NodeReport(claimId, f).riskScore
    ensures AgentReport(claimId, f).category == NodeReport(claimId, f).category
    ensures |AgentReport(claimId, f).reasons| == |NodeReport(claimId, f).reasons| == |Fired(f)|
    ensures forall k :: 0 <= k < |Fired(f)| ==>
      (AgentReport(claimId, f).reasons[k] == NodeReport(claimId, f).reasons[k]
       <==> Fired(f)[k] != HighAmount && Fired(f)[k] != SoloInjury)
  {
    forall k | 0 <= k < |Fired(f)|
      ensures AgentReport(claimId, f).reasons[k] == NodeReport(claimId, f).reasons[k]
        <==> Fired(f)[k] != HighAmount && Fired(f)[k] != SoloInjury
    {
      AgentReasonDiffers(Fired(f)[k]);
    }
  }

  /**
   * An argument whose only braces enclose an empty object: every default
   * applies, so the new-customer and the invalid-amount rules fire and the
   * claim scores 5, Medium, for the claim id "unknown".
   */
  lemma EmptyClaimScoresFive(before: string, after: string, loads: Loads, asStr: Json -> Option<string>)
    requires '{' !in before && '}' !in after
    requires loads("{}") == Ok(JObject(map[])) && asStr(JStr("unknown")) == Some("unknown")
    ensures Assessment(before + "{}" + after, loads, asStr)
      == Assessed(RiskReport("unknown", 5, "Medium",
           [AgentReason(NewCustomer), AgentReason(InvalidAmount)]))
  {
    BraceWindowOfWrapped(before, "{}", after);
    EmptyWindowScoresFive(before + "{}" + after, loads, asStr);
  }

  /** The tool on any argument whose brace window is the empty object. */
  lemma EmptyWindowScoresFive(claimData: string, loads: Loads, asStr: Json -> Option<string>)
    requires BraceWindow(claimData) == Some("{}")
    requires loads("{}") == Ok(JObject(map[])) && asStr(JStr("unknown")) == Some("unknown")
    ensures Assessment(claimData, loads, asStr)
      == Assessed(RiskReport("unknown", 5, "Medium",
           [AgentReason(NewCustomer), AgentReason(InvalidAmount)]))
  {
    EmptyClaimFacts();
    assert Get(map[], "claim_id", JStr("unknown")) == JStr("unknown");
  }

  /** The report for the all-defaults facts. */
  lemma EmptyClaimFacts()
    ensures ClaimFacts(map[]) == Some(RiskFacts(0.0, 0.0, 0.0, false, false))
    ensures AgentReport("unknown", RiskFacts(0.0, 0.0, 0.0, false, false))
      == RiskReport("unknown", 5, "Medium", [AgentReason(NewCustomer), AgentReason(InvalidAmount)])
  {
    var f := RiskFacts(0.0, 0.0, 0.0, false, false);
    assert Fired(f) == [NewCustomer, InvalidAmount];
  }

  /**
   * The node reads back what the tool wrote: when the final message is the
   * tool's successful output and the serialised report neither holds the
   * marker nor fails to load, the node returns the loaded report.
   */
  lemma NodeReadsToolOutput(report: RiskReport, serialize: RiskReport -> string, describe: Failure -> string,
                            loads: Loads, v: Json)
    requires !Contains(serialize(report), Marker + " ")
    requires loads(serialize(report)) == Ok(v)
    ensures RiskAgentNode(ToolText(Assessed(report), serialize, describe), loads) == Parsed(v)
  {
    MarkedReplyOfToolOutput(Marker, serialize(report), loads, true, v);
  }
}
