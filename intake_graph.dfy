/**
 * Backend/Agents/intake_graph.py: the `validate_claim_json` tool and the
 * marker handling of `intake_agent_node`. The tool parses the claim JSON,
 * lets pydantic build a `Claim`, then collects its own field errors in a
 * fixed order. `json.loads` and pydantic are parameters.
 */
module IntakeGraph {
  import opened Common
  import opened Text
  import opened AgentText

  const Marker := "VALID_CLAIM:"

  /** The `Claim` fields the extra checks read, as pydantic produced them. */
  datatype ClaimFields = ClaimFields(
    claimId: string, amount: real, date: string,
    customerId: string, policyNumber: string, incidentLocation: string)

  /** The six checks, in the order the tool runs them. */
  datatype Check =
    ClaimIdRequired | AmountPositive | DateRequired | CustomerRequired | PolicyRequired | LocationRequired

  predicate Fails(check: Check, c: ClaimFields)
  {
    match check
    case ClaimIdRequired => c.claimId == ""
    case AmountPositive => c.amount <= 0.0
    case DateRequired => c.date == ""
    case CustomerRequired => c.customerId == ""
    case PolicyRequired => c.policyNumber == ""
    case LocationRequired => c.incidentLocation == ""
  }

  function Message(check: Check): string
  {
    match check
    case ClaimIdRequired => "claim_id is required."
    case AmountPositive => "amount must be greater than 0."
    case DateRequired => "date is required."
    case CustomerRequired => "customer_id is required."
    case PolicyRequired => "policy_number is required."
    case LocationRequired => "incident_location is required."
  }

  /** What one check adds to the error list: its message when it fails, else nothing. */
  function Flagged(check: Check, c: ClaimFields): seq<string>
  {
    if Fails(check, c) then [Message(check)] else []
  }

  /** The error list: the messages of the failing checks, in check order. */
  function Errors(c: ClaimFields): seq<string>
  {
    Flagged(ClaimIdRequired, c) + Flagged(AmountPositive, c) + Flagged(DateRequired, c)
      + Flagged(CustomerRequired, c) + Flagged(PolicyRequired, c) + Flagged(LocationRequired, c)
  }

  /** One `if ...: errors.append(...)` of the tool. */
  method ApplyCheck(check: Check, c: ClaimFields, errors: seq<string>) returns (errors': seq<string>)
    ensures errors' == errors + Flagged(check, c)
  {
    errors' := errors;
    if Fails(check, c) {
      errors' := errors' + [Message(check)];
    }
  }

  /** The tool's error accumulation: an empty list, then the six checks in turn. */
  method CollectErrors(c: ClaimFields) returns (errors: seq<string>)
    ensures errors == Errors(c)
  {
    errors := [];
    errors := ApplyCheck(ClaimIdRequired, c, errors);
    errors := ApplyCheck(AmountPositive, c, errors);
    errors := ApplyCheck(DateRequired, c, errors);
    errors := ApplyCheck(CustomerRequired, c, errors);
    errors := ApplyCheck(PolicyRequired, c, errors);
    errors := ApplyCheck(LocationRequired, c, errors);
    assert [] + Flagged(ClaimIdRequired, c) == Flagged(ClaimIdRequired, c);
  }

  /** The tool's outcome before rendering. */
  datatype Validation =
    | ValidClaim(input: string)       // no errors: the input string, unmodified
    | ValidationErrors(errors: seq<string>)
    | JsonError(message: string)       // json.loads raised JSONDecodeError
    | SchemaError(message: string)     // pydantic (or `**` on a non-dict) raised

  /**
   * `validate_claim_json` up to its string result. `toClaim` is
   * `Claim(**claim_data)`: the validated fields or the exception text.
   */
  method ValidateClaimJson(input: string, loads: Loads, toClaim: Json -> Result<ClaimFields, string>)
    returns (v: Validation)
    ensures v.JsonError? <==> loads(input).Err?
    ensures v.SchemaError? <==> loads(input).Ok? && toClaim(loads(input).value).Err?
    ensures v.ValidClaim? <==>
      loads(input).Ok? && toClaim(loads(input).value).Ok? && Errors(toClaim(loads(input).value).value) == []
    ensures v.ValidClaim? ==> v.input == input
    ensures v.ValidationErrors? ==> v.errors == Errors(toClaim(loads(input).value).value) && v.errors != []
  {
    var parsed := loads(input);
    if parsed.Err? {
      return JsonError(parsed.error);
    }
    var claim := toClaim(parsed.value);
    if claim.Err? {
      return SchemaError(claim.error);
    }
    var errors := CollectErrors(claim.value);
    if errors != [] {
      return ValidationErrors(errors);
    }
    v := ValidClaim(input);
  }

  /** The string the tool returns. */
  function ToolText(v: Validation): (t: string)
    ensures v.ValidClaim? ==> t == Marker + " " + v.input
    ensures v.ValidationErrors? ==> t == "VALIDATION_ERRORS: " + Join(v.errors, "; ")
  {
    match v
    case ValidClaim(input) => Marker + " " + input
    case ValidationErrors(errors) => "VALIDATION_ERRORS: " + Join(errors, "; ")
    case JsonError(message) => "JSON_ERROR: Invalid JSON format - " + message
    case SchemaError(message) => "VALIDATION_ERROR: " + message
  }

  /**
   * `intake_agent_node` after the agent has run: a final message without
   * "VALID_CLAIM:" gives the error dict; otherwise the text after
   * "VALID_CLAIM: " is loaded, and this node does not catch a decode
   * failure.
   */
  function IntakeAgentNode(final: string, loads: Loads): (r: Reply)
    ensures r.ErrorDict? <==> !Contains(final, Marker)
    ensures !r.RawContent?
    ensures r.Parsed? ==> exists p :: SecondPiece(final, Marker + " ") == Some(p) && loads(p) == Ok(r.value)
    ensures Contains(final, Marker + " ") ==>
      var piece := SecondPiece(final, Marker + " ").value;
      (loads(piece).Ok? ==> r == Parsed(loads(piece).value)) && (loads(piece).Err? ==> r == Raised)
    ensures Contains(final, Marker) && !Contains(final, Marker + " ") ==> r == Raised
  {
    MarkedReply(final, Marker, loads, false)
  }

  // ------------------------------------------------------------ properties

  /** The error list is empty exactly when every check passes. */
  lemma NoErrorsIffAllPass(c: ClaimFields)
    ensures Errors(c) == [] <==> forall check :: !Fails(check, c)
  {
    if Errors(c) == [] {
      forall check ensures !Fails(check, c) {
        match check
        case ClaimIdRequired =>
        case AmountPositive =>
        case DateRequired =>
        case CustomerRequired =>
        case PolicyRequired =>
        case LocationRequired =>
      }
    }
  }

  /** Every check's message is its own. */
  lemma MessageInjective(a: Check, b: Check)
    requires Message(a) == Message(b)
    ensures a == b
  {
    assert |Message(a)| == |Message(b)| && Message(a)[0] == Message(b)[0];
  }

  /** A check's message comes from one check's contribution only. */
  lemma InFlagged(check: Check, other: Check, c: ClaimFields)
    ensures Message(check) in Flagged(other, c) <==> other == check && Fails(check, c)
  {
    if Message(check) in Flagged(other, c) {
      MessageInjective(other, check);
    }
  }

  /** The error list names exactly the failing checks. */
  lemma ErrorsNameFailingChecks(c: ClaimFields)
    ensures |Errors(c)| <= 6
    ensures forall check :: Message(check) in Errors(c) <==> Fails(check, c)
  {
    forall check ensures Message(check) in Errors(c) <==> Fails(check, c) {
      InFlagged(check, ClaimIdRequired, c);
      InFlagged(check, AmountPositive, c);
      InFlagged(check, DateRequired, c);
      InFlagged(check, CustomerRequired, c);
      InFlagged(check, PolicyRequired, c);
      InFlagged(check, LocationRequired, c);
    }
  }

  /** A non-positive amount always yields the amount message, whatever else is wrong. */
  lemma NonPositiveAmountFlagged(c: ClaimFields)
    requires c.amount <= 0.0
    ensures "amount must be greater than 0." in Errors(c)
  {
  }

  /**
   * The tool's valid result, echoed as the agent's final message, reaches
   * the node as the very value the tool parsed, provided the claim text
   * does not itself contain the marker.
   */
  lemma ValidClaimReachesNode(input: string, loads: Loads, v: Validation)
    requires v == ValidClaim(input) && loads(input).Ok?
    requires !Contains(input, Marker + " ")
    ensures IntakeAgentNode(ToolText(v), loads) == Parsed(loads(input).value)
  {
    MarkedReplyOfToolOutput(Marker, input, loads, false, loads(input).value);
  }

  /** A marker-bearing final message whose payload does not parse raises out of the node. */
  lemma UnparsedClaimRaises(final: string, loads: Loads)
    requires Contains(final, Marker + " ") && loads(SecondPiece(final, Marker + " ").value).Err?
    ensures IntakeAgentNode(final, loads) == Raised
  {
    ContainsTrans(final, Marker + " ", Marker);
  }
}
