/**
 * Frontend/fnol-flow-vision/src/services/api.ts: the claim-to-text
 * formatter sent to the backend, and the read-modify-write access to the
 * shared claim result store. The HTTP calls (`processClaimData`,
 * `checkHealth`) are not part of this model.
 */
module Api {
  import opened Common
  import opened Text
  import opened AgentText
  import opened BrowserStorage
  import opened JsValue

  // ------------------------------------------------------------- the store

  /**
   * `getClaimFromStorage(claimId)` on the current item: `claims[claimId] ||
   * null`; null when the item is missing, when parsing throws, and when the
   * entry is absent or falsy.
   */
  function GetClaimFromStorage(cell: Cell, claimId: string): (r: Option<Json>)
    ensures r.Some? <==> cell.Object? && claimId in cell.entries && JsTruthy(cell.entries[claimId])
    ensures r.Some? ==> r.value == cell.entries[claimId]
  {
    match cell
    case Object(entries) =>
      if claimId in entries && JsTruthy(entries[claimId]) then Some(entries[claimId]) else None
    case _ => None
  }

  /**
   * The item after `saveClaimToStorage(claimId, result)`: a missing item
   * starts from `{}`; a malformed one makes `JSON.parse` (or the property
   * write) throw, the error is caught and the item is left as it was.
   */
  function Saved(cell: Cell, claimId: string, result: Json): (r: Cell)
    ensures cell.Malformed? <==> r.Malformed?
    ensures cell.Malformed? ==> r == cell
    ensures r.Object? ==> r.entries.Keys == (if cell.Object? then cell.entries.Keys else {}) + {claimId}
  {
    match cell
    case Missing => Object(map[claimId := result])
    case Malformed => Malformed
    case Object(entries) => Object(entries[claimId := result])
  }

  /** `saveClaimToStorage`: read the item, set one entry, write the whole object back. */
  method SaveClaimToStorage(store: LocalStorage, claimId: string, result: Json)
    modifies store`cell
    ensures store.cell == Saved(old(store.cell), claimId, result)
  {
    match store.cell
    case Missing =>
      store.cell := Object(map[claimId := result]);
    case Malformed =>
    case Object(claims) =>
      store.cell := Object(claims[claimId := result]);
  }

  /**
   * `getClaimDetails`: the stored entry when it is truthy, and null
   * otherwise (the network lookup it would fall back to does not exist).
   */
  function GetClaimDetails(cell: Cell, claimId: string): (r: Option<Json>)
    ensures r == GetClaimFromStorage(cell, claimId)
  {
    match GetClaimFromStorage(cell, claimId)
    case Some(local) => if JsTruthy(local) then Some(local) else None
    case None => None
  }

  /** A save followed by a lookup of the same id gives back the saved result, unless the item is malformed or the result falsy. */
  lemma SaveThenGet(cell: Cell, claimId: string, result: Json)
    ensures GetClaimFromStorage(Saved(cell, claimId, result), claimId) ==
      if !cell.Malformed? && JsTruthy(result) then Some(result) else None
  {
  }

  /** The read-modify-write keeps every other claim: lookups of other ids are unchanged by a save. */
  lemma SaveKeepsOthers(cell: Cell, claimId: string, result: Json, other: string)
    requires other != claimId
    ensures GetClaimFromStorage(Saved(cell, claimId, result), other) == GetClaimFromStorage(cell, other)
  {
  }

  // ------------------------------------------------------- text formatter

  /** The claim form fields the formatter interpolates, each as JavaScript renders it into the template. */
  datatype ClaimText = ClaimText(
    customerId: string,
    claimType: string,
    policyNumber: string,
    amount: string,        // `${amount}`: the number as JavaScript prints it
    date: string,          // already an ISO date when the form held a Date
    location: string,
    policeReport: string,  // null and "" are both falsy
    injuries: bool,
    description: string)

  /**
   * JavaScript `s.replace('_', ' ')`: a string pattern replaces only its
   * first occurrence.
   */
  function ReplaceFirstUnderscore(s: string): (r: string)
    ensures '_' !in s ==> r == s
    ensures '_' in s ==> exists i :: 0 <= i < |s| && s[i] == '_' && '_' !in s[..i] && r == s[..i] + " " + s[i + 1..]
  {
    match IndexOfChar(s, '_')
    case None => s
    case Some(i) => s[..i] + " " + s[i + 1..]
  }

  /** The police sentence: the report number when the field is truthy. */
  function PoliceLine(policeReport: string): string
  {
    if policeReport != "" then "Police report number: " + policeReport + "." else "No police report filed."
  }

  function InjuryLine(injuries: bool): string
  {
    if injuries then "Injuries were reported." else "No injuries reported."
  }

  /** The template's first four lines, each ended by its newline. */
  function Head(d: ClaimText): (r: string)
    ensures |r| > 0 && r[0] == 'C'
  {
    "Customer " + d.customerId + " reported " + ReplaceFirstUnderscore(d.claimType) + " incident.\n"
    + "Policy number " + d.policyNumber + ". \n"
    + "Estimated loss $" + d.amount + ".\n"
    + "Incident occurred on " + d.date + " at " + d.location + ".\n"
  }

  /** The template's last three lines. */
  function Tail(d: ClaimText, now: string): (r: string)
    ensures |r| > 0 && r[|r| - 1] == '.'
  {
    "Description: " + d.description + "\n"
    + "Submitted on " + now + ".\n"
    + "Claim ID should be generated automatically."
  }

  /** The template's text between its leading newline and its trailing newline and indentation. */
  function Body(d: ClaimText, now: string): string
  {
    Head(d) + PoliceLine(d.policeReport) + "\n" + InjuryLine(d.injuries) + "\n" + Tail(d, now)
  }

  /**
   * `formatClaimDataAsText`: the template, trimmed; `now` stands for
   * `new Date().toISOString()`. The trim removes exactly the template's
   * padding, whatever the fields hold: the text is the body, which neither
   * starts nor ends with white space.
   */
  function FormatClaimDataAsText(d: ClaimText, now: string): (r: string)
    ensures r == Body(d, now)
    ensures |r| > 0 && !IsSpace(r[0]) && !IsSpace(r[|r| - 1])
  {
    BodyEnds(d, now);
    TrimTemplate(Body(d, now));
    Trim("\n" + Body(d, now) + "\n    ")
  }

  /** The body starts with "Customer" and ends with a full stop. */
  lemma BodyEnds(d: ClaimText, now: string)
    ensures var b := Body(d, now); |b| > 0 && !IsSpace(b[0]) && !IsSpace(b[|b| - 1])
  {
    var b := Body(d, now);
    var tail := Tail(d, now);
    assert b == (Head(d) + PoliceLine(d.policeReport) + "\n" + InjuryLine(d.injuries) + "\n") + tail;
    assert b[0] == Head(d)[0];
    assert b[|b| - 1] == tail[|tail| - 1];
  }

  /** The template's padding, a newline before and a newline and indentation after, is what the trim removes. */
  lemma TrimTemplate(b: string)
    requires |b| > 0 && !IsSpace(b[0]) && !IsSpace(b[|b| - 1])
    ensures Trim("\n" + b + "\n    ") == b
  {
    TrimPadded("\n", b, "\n    ");
  }

  // ------------------------------------------------------------ properties

  /** Both middle lines of a body shaped like the template occur in it. */
  lemma MiddleLines(head: string, police: string, injury: string, tail: string)
    ensures Contains(head + police + "\n" + injury + "\n" + tail, police)
    ensures Contains(head + police + "\n" + injury + "\n" + tail, injury)
  {
    var s := head + police + "\n" + injury + "\n" + tail;
    assert s[|head|..|head| + |police|] == police;
    ContainsAt(s, police, |head|);
    var at := |head| + |police| + 1;
    assert s[at..at + |injury|] == injury;
    ContainsAt(s, injury, at);
  }

  /** The body holds both sentences the flags select. */
  lemma BodyLines(d: ClaimText, now: string)
    ensures Contains(Body(d, now), PoliceLine(d.policeReport))
    ensures Contains(Body(d, now), InjuryLine(d.injuries))
  {
    MiddleLines(Head(d), PoliceLine(d.policeReport), InjuryLine(d.injuries), Tail(d, now));
  }

  /** A truthy police report field puts its number sentence into the text. */
  lemma PoliceReportSentence(d: ClaimText, now: string)
    requires d.policeReport != ""
    ensures Contains(FormatClaimDataAsText(d, now), "Police report number: " + d.policeReport + ".")
  {
    BodyLines(d, now);
  }

  /** A falsy police report field puts the "no report" sentence into the text. */
  lemma NoPoliceReportSentence(d: ClaimText, now: string)
    requires d.policeReport == ""
    ensures Contains(FormatClaimDataAsText(d, now), "No police report filed.")
  {
    BodyLines(d, now);
  }

  /** Reported injuries put the injury sentence into the text. */
  lemma InjuriesSentence(d: ClaimText, now: string)
    requires d.injuries
    ensures Contains(FormatClaimDataAsText(d, now), "Injuries were reported.")
  {
    BodyLines(d, now);
  }

  /** No injuries put the "no injuries" sentence into the text. */
  lemma NoInjuriesSentence(d: ClaimText, now: string)
    requires !d.injuries
    ensures Contains(FormatClaimDataAsText(d, now), "No injuries reported.")
  {
    BodyLines(d, now);
  }

  /** Only the first underscore of the claim type becomes a space; later ones stay. */
  lemma OnlyFirstUnderscoreReplaced(a: string, b: string, c: string)
    requires '_' !in a
    ensures ReplaceFirstUnderscore(a + "_" + b + "_" + c) == a + " " + b + "_" + c
  {
    var s := a + "_" + b + "_" + c;
    assert s[|a|] == '_' && s[..|a|] == a;
    IndexOfCharAt(s, '_', |a|);
    assert s[|a| + 1..] == b + "_" + c;
  }
}
