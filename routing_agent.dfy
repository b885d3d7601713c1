/**
 * Backend/Agents/routing_agent.py: the `route_claim` tool and the marker
 * split of `routing_agent_node`. The tool cuts the JSON object out of its
 * text argument and applies the routing table of the graph's routing node,
 * with the adjuster tiers cut down to their bare "Tier n" labels.
 */
module RoutingAgent {
  import opened Common
  import opened Text
  import opened AgentText
  import opened RoutingNode

  const Marker := "ROUTING_DECISION:"

  /** The string a JSON value equals in the table's `==` tests; "" (no row) for a non-string. */
  function AsText(j: Json): (r: string)
    ensures j.JStr? ==> r == j.s
    ensures !j.JStr? ==> !KnownCategory(r) && !FastTrackType(r)
  {
    if j.JStr? then j.s else ""
  }

  /**
   * The tool's table: the rows of the node's table with the tier labels
   * "Tier 1", "Tier 2", "Tier 3".
   */
  function AgentRoute(category: Json, claimType: Json): (r: Decision)
    ensures r.priority in {"Low", "Medium", "High"}
    ensures r.tier in {"Tier 1", "Tier 2", "Tier 3"}
  {
    if category == JStr("High") then
      Decision(SiuPath, "High", "Tier 3", [SiuNote])
    else if category == JStr("Medium") then
      Decision(ReviewPath, "Medium", "Tier 2", [MediumNote])
    else if category == JStr("Low") then
      if claimType == JStr("auto_accident") || claimType == JStr("property_damage") then
        Decision(FastTrackPath, "Low", "Tier 1", [FastTrackNote])
      else
        Decision(StandardPath, "Medium", "Tier 2", [StandardNote])
    else
      Decision(StandardPath, "Medium", "Tier 2", [])
  }

  /**
   * The body of `route_claim` after the field reads: the defaults, then the
   * branch for the category reassigns the locals and appends one rationale
   * line.
   */
  method Decide(category: Json, claimType: Json) returns (d: Decision)
    ensures d == AgentRoute(category, claimType)
  {
    var path := StandardPath;
    var priority := "Medium";
    var tier := "Tier 2";
    var rationale: seq<string> := [];
    if category == JStr("High") {
      path := SiuPath;
      priority := "High";
      tier := "Tier 3";
      rationale := rationale + [SiuNote];
    } else if category == JStr("Medium") {
      path := ReviewPath;
      priority := "Medium";
      tier := "Tier 2";
      rationale := rationale + [MediumNote];
    } else if category == JStr("Low") {
      if claimType == JStr("auto_accident") || claimType == JStr("property_damage") {
        path := FastTrackPath;
        priority := "Low";
        tier := "Tier 1";
        rationale := rationale + [FastTrackNote];
      } else {
        path := StandardPath;
        priority := "Medium";
        tier := "Tier 2";
        rationale := rationale + [StandardNote];
      }
    }
    d := Decision(path, priority, tier, rationale);
  }

  /** The pydantic `RoutingDecision` the tool builds. */
  datatype RoutingDecision = RoutingDecision(
    claimId: string, processingPath: string, priority: string, adjusterTier: string, rationale: string)

  datatype Failure =
    | NotAnObject     // `data.get` on a parsed value that is not a dict
    | InvalidClaimId  // pydantic rejects the claim id as a `str` field

  datatype Outcome =
    | Routed(decision: RoutingDecision)
    | NoJson
    | BadJson(message: string)
    | Failed(why: Failure)

  /**
   * The tool from its argument to its outcome: the claim id, type and
   * category are read with the defaults "unknown", "general" and "Low".
   * `asStr` is pydantic's validation of `claim_id: str`; the two Literal
   * fields always validate (see `AgentRoute`).
   */
  function Routing(riskData: string, loads: Loads, asStr: Json -> Option<string>): (r: Outcome)
    ensures r.NoJson? <==> '{' !in riskData || '}' !in riskData
    ensures r.BadJson? ==> loads(BraceWindow(riskData).value) == Err(r.message)
    ensures r.Routed? ==>
      r.decision.priority in {"Low", "Medium", "High"} && r.decision.adjusterTier in {"Tier 1", "Tier 2", "Tier 3"}
    ensures r.Routed? || r.Failed? <==> ParsedWindow(riskData, loads).Some?
    ensures ParsedWindow(riskData, loads).Some? ==>
      var data := ParsedWindow(riskData, loads).value;
      (r == Failed(NotAnObject) <==> !data.JObject?)
      && (r == Failed(InvalidClaimId) <==> data.JObject? && asStr(Get(data.fields, "claim_id", JStr("unknown"))).None?)
      && (r.Routed? ==>
            var d := AgentRoute(Get(data.fields, "category", JStr("Low")), Get(data.fields, "type", JStr("general")));
            r.decision == RoutingDecision(asStr(Get(data.fields, "claim_id", JStr("unknown"))).value,
              d.path, d.priority, d.tier, Join(d.rationale, "; ")))
  {
    match BraceWindow(riskData)
    case None => NoJson
    case Some(window) =>
      match loads(window)
      case Err(message) => BadJson(message)
      case Ok(data) =>
        if !data.JObject? then Failed(NotAnObject)
        else
          var d := AgentRoute(Get(data.fields, "category", JStr("Low")), Get(data.fields, "type", JStr("general")));
          match asStr(Get(data.fields, "claim_id", JStr("unknown")))
          case None => Failed(InvalidClaimId)
          case Some(claimId) =>
            Routed(RoutingDecision(claimId, d.path, d.priority, d.tier, Join(d.rationale, "; ")))
  }

  /** `route_claim` up to its string result. */
  method RouteClaim(riskData: string, loads: Loads, asStr: Json -> Option<string>) returns (out: Outcome)
    ensures out == Routing(riskData, loads, asStr)
  {
    var window := BraceWindow(riskData);
    if window.None? {
      return NoJson;
    }
    var parsed := loads(window.value);
    if parsed.Err? {
      return BadJson(parsed.error);
    }
    var data := parsed.value;
    if !data.JObject? {
      return Failed(NotAnObject);
    }
    var claimId := Get(data.fields, "claim_id", JStr("unknown"));
    var claimType := Get(data.fields, "type", JStr("general"));
    var category := Get(data.fields, "category", JStr("Low"));
    var d := Decide(category, claimType);
    var id := asStr(claimId);
    if id.None? {
      return Failed(InvalidClaimId);
    }
    out := Routed(RoutingDecision(id.value, d.path, d.priority, d.tier, Join(d.rationale, "; ")));
  }

  /**
   * The string the tool returns; `serialize` is `.json()` and `describe` is
   * `str(e)`, which here sees only the kind of failure and not the
   * offending value, so its text is coarser than Python's.
   */
  function ToolText(out: Outcome, serialize: RoutingDecision -> string, describe: Failure -> string): (t: string)
    ensures out.Routed? ==> t == Marker + " " + serialize(out.decision)
  {
    match out
    case Routed(decision) => Marker + " " + serialize(decision)
    case NoJson => "ERROR: Could not parse risk assessment data. Expected JSON format."
    case BadJson(message) => "ERROR: Invalid JSON format - " + message
    case Failed(why) => "ERROR: Routing failed - " + describe(why)
  }

  /** `routing_agent_node` after the agent has run. */
  function RoutingAgentNode(final: string, loads: Loads): (r: Reply)
    ensures r.ErrorDict? <==> !Contains(final, Marker)
    ensures r.Raised? <==> Contains(final, Marker) && !Contains(final, Marker + " ")
    ensures r.Parsed? ==> exists p :: SecondPiece(final, Marker + " ") == Some(p) && loads(p) == Ok(r.value)
    ensures Contains(final, Marker + " ") ==>
      var piece := SecondPiece(final, Marker + " ").value;
      (loads(piece).Ok? ==> r == Parsed(loads(piece).value)) && (loads(piece).Err? ==> r == RawContent(piece))
  {
    MarkedReply(final, Marker, loads, true)
  }

  // ------------------------------------------------------------ properties

  /**
   * The tool and the node route alike: same path, priority and rationale
   * for the same category and type; the tool's tier is the node's tier
   * label without its parenthesised suffix.
   */
  lemma AgentAgreesWithNode(category: Json, claimType: Json)
    ensures var a := AgentRoute(category, claimType);
      var n := Route(AsText(category), AsText(claimType));
      a.path == n.path && a.priority == n.priority && a.rationale == n.rationale && a.tier <= n.tier
  {
    var n := Route(AsText(category), AsText(claimType));
    if category == JStr("High") {
      assert "Tier 3" <= "Tier 3 (Specialist)";
    } else if category == JStr("Medium") {
      assert "Tier 2" <= "Tier 2 (Experienced)";
    } else if category == JStr("Low") {
      if FastTrackType(AsText(claimType)) {
        assert "Tier 1" <= "Tier 1 (Junior)";
      } else {
        assert "Tier 2" <= "Tier 2 (Experienced)";
      }
    }
  }

  /** A risk report without a `type` field is routed as type "general", which is never fast-tracked. */
  lemma MissingTypeNeverFastTracked(fields: map<string, Json>)
    requires "type" !in fields
    ensures AgentRoute(Get(fields, "category", JStr("Low")), Get(fields, "type", JStr("general"))).path != FastTrackPath
  {
  }

  /** A risk report without a `category` field is routed as a Low-risk claim. */
  lemma MissingCategoryIsLow(fields: map<string, Json>, claimType: Json)
    requires "category" !in fields
    ensures AgentRoute(Get(fields, "category", JStr("Low")), claimType) == AgentRoute(JStr("Low"), claimType)
  {
  }

  /** The node reads back what the tool wrote. */
  lemma NodeReadsToolOutput(decision: RoutingDecision, serialize: RoutingDecision -> string,
                            describe: Failure -> string, loads: Loads, v: Json)
    requires !Contains(serialize(decision), Marker + " ")
    requires loads(serialize(decision)) == Ok(v)
    ensures RoutingAgentNode(ToolText(Routed(decision), serialize, describe), loads) == Parsed(v)
  {
    MarkedReplyOfToolOutput(Marker, serialize(decision), loads, true, v);
  }
}
