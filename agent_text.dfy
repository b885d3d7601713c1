/**
 * The text plumbing the three backend agents (Backend/Agents/intake_graph.py,
 * risk_agent.py, routing_agent.py) share: JSON values as Python sees them
 * after `json.loads`, the brace window the tools cut out of their input, and
 * the marker split the agent nodes apply to the model's final message.
 * `json.loads` itself is not modelled: it is a parameter `loads`.
 */
module AgentText {
  import opened Common
  import opened Text

  /** A JSON value as `json.loads` returns it. */
  datatype Json =
    | JNull
    | JBool(b: bool)
    | JNum(n: real)
    | JStr(s: string)
    | JList(items: seq<Json>)
    | JObject(fields: map<string, Json>)

  /** `json.loads`: a value, or the message of the JSONDecodeError it raises. */
  type Loads = string -> Result<Json, string>

  /** Python truthiness of a JSON value. */
  predicate Truthy(j: Json)
  {
    match j
    case JNull => false
    case JBool(b) => b
    case JNum(n) => n != 0.0
    case JStr(s) => s != ""
    case JList(items) => items != []
    case JObject(fields) => fields != map[]
  }

  /**
   * The number Python compares when a JSON value meets `>` or `<=` against an
   * int: numbers themselves and booleans as 0 and 1; None where the
   * comparison raises TypeError (strings, null, lists, objects).
   */
  function PyNumber(j: Json): (r: Option<real>)
    ensures r.Some? <==> j.JNum? || j.JBool?
  {
    match j
    case JNum(n) => Some(n)
    case JBool(b) => Some(if b then 1.0 else 0.0)
    case _ => None
  }

  /** `data.get(key, default)` on a parsed object. */
  function Get(fields: map<string, Json>, key: string, default: Json): (r: Json)
    ensures key in fields ==> r == fields[key]
    ensures key !in fields ==> r == default
  {
    if key in fields then fields[key] else default
  }

  // ----------------------------------------------------------- brace window

  /** The value a tool's `json.loads(claim_data[start:end])` yields, when a window exists and parses. */
  function ParsedWindow(s: string, loads: Loads): Option<Json>
  {
    match BraceWindow(s)
    case None => None
    case Some(window) =>
      match loads(window)
      case Err(_) => None
      case Ok(j) => Some(j)
  }

  /**
   * The tools' JSON extraction: when the text holds both a '{' and a '}',
   * the slice from the first '{' up to and including the last '}' (Python
   * slicing yields "" when that '}' comes first); None when either brace is
   * missing, where the tools return their "Could not parse" error.
   */
  function BraceWindow(s: string): (r: Option<string>)
    ensures r.None? <==> '{' !in s || '}' !in s
    ensures r.Some? && r.value != "" ==>
      r.value[0] == '{' && r.value[|r.value| - 1] == '}'
  {
    match IndexOfChar(s, '{')
    case None => None
    case Some(start) =>
      match LastIndexOfChar(s, '}')
      case None => None
      case Some(last) =>
        if last + 1 <= start then Some("")
        else
          assert s[start..last + 1][last - start] == s[last];
          Some(s[start..last + 1])
  }

  /** The first `c` is at `i` when `s[i]` is `c` and none comes before it. */
  lemma IndexOfCharAt(s: string, c: char, i: nat)
    requires i < |s| && s[i] == c && c !in s[..i]
    ensures IndexOfChar(s, c) == Some(i)
  {
  }

  /** The last `c` is at `i` when `s[i]` is `c` and none comes after it. */
  lemma LastIndexOfCharAt(s: string, c: char, i: nat)
    requires i < |s| && s[i] == c && c !in s[i + 1..]
    ensures LastIndexOfChar(s, c) == Some(i)
  {
  }

  /**
   * Text around one braced payload, with no '{' before it and no '}' after
   * it: the window is exactly the payload, whatever braces it holds.
   */
  lemma BraceWindowOfWrapped(before: string, braced: string, after: string)
    requires '{' !in before && '}' !in after
    requires |braced| >= 2 && braced[0] == '{' && braced[|braced| - 1] == '}'
    ensures BraceWindow(before + braced + after) == Some(braced)
  {
    var s := before + braced + after;
    var start := |before|;
    var last := |before| + |braced| - 1;
    assert s[..start] == before;
    IndexOfCharAt(s, '{', start);
    assert s[last + 1..] == after;
    LastIndexOfCharAt(s, '}', last);
    assert s[start..last + 1] == braced;
  }

  // ----------------------------------------------------------- marker split

  /** What an agent node makes of the model's final message. */
  datatype Reply =
    | Parsed(value: Json)        // the text after the marker, as loaded by `json.loads`
    | RawContent(content: string) // {"content": text, "source": "agent_response"}
    | ErrorDict(details: string)  // {"error": ..., "details": final message}
    | Raised                      // an exception escapes the node

  /**
   * The nodes' marker handling: when `check` occurs in the final message,
   * take `split(check + " ")[1]` (IndexError, so Raised, when only the
   * colon form occurs) and load it. A decode failure gives the raw content
   * when the node catches it and Raised when it does not.
   */
  function MarkedReply(final: string, check: string, loads: Loads, catchDecode: bool): (r: Reply)
    requires |check| > 0
    ensures r.ErrorDict? <==> !Contains(final, check)
    ensures r.ErrorDict? ==> r.details == final
    ensures r.Parsed? ==> exists p :: SecondPiece(final, check + " ") == Some(p) && loads(p) == Ok(r.value)
    ensures r.RawContent? ==> catchDecode
    ensures r.RawContent? ==> SecondPiece(final, check + " ") == Some(r.content) && loads(r.content).Err?
    ensures catchDecode ==> (r.Raised? <==> Contains(final, check) && !Contains(final, check + " "))
    ensures Contains(final, check + " ") && loads(SecondPiece(final, check + " ").value).Ok? ==>
      r == Parsed(loads(SecondPiece(final, check + " ").value).value)
    ensures Contains(final, check + " ") && loads(SecondPiece(final, check + " ").value).Err? ==>
      r == if catchDecode then RawContent(SecondPiece(final, check + " ").value) else Raised
  {
    if !Contains(final, check) then
      assert !Contains(final, check + " ") by {
        if Contains(final, check + " ") { ContainsOfLonger(final, check, " "); }
      }
      ErrorDict(final)
    else
      match SecondPiece(final, check + " ")
      case None => Raised
      case Some(piece) =>
        match loads(piece)
        case Ok(v) => Parsed(v)
        case Err(_) => if catchDecode then RawContent(piece) else Raised
  }

  /**
   * The tool's own output echoed as the final message: the marker, one
   * space, then the serialised payload. The node recovers exactly the
   * payload's loaded value.
   */
  lemma MarkedReplyOfToolOutput(check: string, payload: string, loads: Loads, catchDecode: bool, v: Json)
    requires |check| > 0 && !Contains(payload, check + " ")
    requires loads(payload) == Ok(v)
    ensures MarkedReply(check + " " + payload, check, loads, catchDecode) == Parsed(v)
  {
    SecondPieceOfMarked(check + " ", payload);
    assert check + " " + payload == check + (" " + payload);
    PrefixContains(check, " " + payload);
  }

  /** The marker with its colon but without the following space passes the check and then raises IndexError. */
  lemma ColonWithoutSpaceRaises(check: string, rest: string, loads: Loads, catchDecode: bool)
    requires |check| > 0 && !Contains(check + rest, check + " ")
    ensures MarkedReply(check + rest, check, loads, catchDecode) == Raised
  {
    PrefixContains(check, rest);
  }
}
