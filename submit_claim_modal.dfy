/**
 * src/components/dashboard/SubmitClaimModal.tsx: the claim form of the
 * operations dashboard. Pasted "dump" text fills the form, either from JSON
 * or from `key: value` lines; a submit assesses the claim's risk from its
 * amount and injury flag and hands the new claim to `onSubmit`, recorded
 * here in the modal's `submitted` list. `JSON.parse`, `parseFloat`,
 * `toString` and `new Date(…)` are parameters.
 */
module SubmitClaimModal {
  import opened Common
  import opened Text
  import opened AgentText
  import opened JsValue

  /** `JSON.parse(text)`: the value, or None when it throws. */
  type JsonParse = string -> Option<Json>

  /** `parseFloat(s)`: a number, or None for NaN. */
  type ParseFloat = string -> Option<real>

  /** How a non-string JSON value reads once it sits in a text input (`toString`, number formatting). */
  type ToText = Json -> string

  /**
   * The form's state. `hasInjuries` is the checkbox; a parsed dump may put
   * any JSON value there, and every later use reads only its truthiness,
   * which is what the flag keeps.
   */
  datatype Form = Form(
    claimType: string,
    amount: string,
    description: string,
    customerId: string,
    policyNumber: string,
    location: string,
    policeReport: string,
    hasInjuries: bool)

  /** The form as it starts, and as a submit leaves it. */
  const EmptyForm := Form("", "", "", "", "", "", "", false)

  // -------------------------------------------------------- JSON dump path

  /** `parsed.x || ''` as a text field: a truthy string itself, another truthy value as text, '' otherwise. */
  function TextOr(j: Option<Json>, toText: ToText): (r: string)
    ensures !Present(j) ==> r == ""
    ensures Present(j) && j.value.JStr? ==> r == j.value.s
  {
    match j
    case None => ""
    case Some(v) => if !JsTruthy(v) then "" else match v case JStr(s) => s case _ => toText(v)
  }

  /** `parsed.amount?.toString() || ''`: null and undefined give ''; any other value its text, even a falsy 0. */
  function AmountText(j: Option<Json>, toText: ToText): (r: string)
    ensures j.None? || j == Some(JNull) ==> r == ""
    ensures j.Some? && j.value.JStr? ==> r == j.value.s
  {
    match j
    case None => ""
    case Some(JNull) => ""
    case Some(JStr(s)) => s
    case Some(v) => toText(v)
  }

  /**
   * `field` is what `parsed.name || ''` puts in a text input: the string
   * when the property is a string, its text when it is another truthy
   * value, and '' when it is missing or falsy.
   */
  predicate TextRead(v: Json, name: string, field: string, toText: ToText)
  {
    var p := Prop(Some(v), name);
    && (p.Some? && p.value.JStr? ==> field == p.value.s)
    && (Present(p) && !p.value.JStr? ==> field == toText(p.value))
    && (!Present(p) ==> field == "")
  }

  /**
   * The form a parsed value replaces the old one with: every field is
   * rewritten, and a field the value does not hold becomes empty.
   */
  function JsonForm(v: Json, toText: ToText): (r: Form)
    ensures !v.JObject? ==> r == EmptyForm.(amount := r.amount)
    ensures !v.JObject? ==> r.amount == ""
    ensures TextRead(v, "type", r.claimType, toText)
    ensures TextRead(v, "description", r.description, toText)
    ensures TextRead(v, "customer_id", r.customerId, toText)
    ensures TextRead(v, "policy_number", r.policyNumber, toText)
    ensures TextRead(v, "location", r.location, toText)
    ensures TextRead(v, "police_report", r.policeReport, toText)
    ensures var a := Prop(Some(v), "amount");
      && (a.None? || a == Some(JNull) ==> r.amount == "")
      && (a.Some? && a.value.JStr? ==> r.amount == a.value.s)
      && (a.Some? && a.value != JNull && !a.value.JStr? ==> r.amount == toText(a.value))
    ensures r.hasInjuries <==> Present(Prop(Some(v), "has_injuries"))
  {
    var p := Some(v);
    Form(
      TextOr(Prop(p, "type"), toText),
      AmountText(Prop(p, "amount"), toText),
      TextOr(Prop(p, "description"), toText),
      TextOr(Prop(p, "customer_id"), toText),
      TextOr(Prop(p, "policy_number"), toText),
      TextOr(Prop(p, "location"), toText),
      TextOr(Prop(p, "police_report"), toText),
      Present(Prop(p, "has_injuries")))
  }

  // -------------------------------------------------------- text dump path

  /** The fields a run of `key: value` lines has supplied so far (`extracted`). */
  datatype Extracted = Extracted(
    claimType: Option<string>,
    amount: Option<string>,
    description: Option<string>,
    customerId: Option<string>,
    policyNumber: Option<string>,
    location: Option<string>,
    policeReport: Option<string>,
    hasInjuries: Option<bool>)

  const NothingExtracted := Extracted(None, None, None, None, None, None, None, None)

  /** `s.replace(/\s+/g, '_')`: every run of whitespace becomes one underscore. */
  function Underscored(s: string): (r: string)
    ensures forall k :: 0 <= k < |r| ==> !IsSpace(r[k])
    ensures (forall k :: 0 <= k < |s| ==> !IsSpace(s[k])) ==> r == s
    ensures |r| <= |s|
    decreases |s|
  {
    if s == "" then ""
    else if IsSpace(s[0]) then
      var rest := TrimStart(s[1..]);
      "_" + Underscored(rest)
    else
      assert (forall k :: 0 <= k < |s| ==> !IsSpace(s[k])) ==> (forall k :: 0 <= k < |s[1..]| ==> !IsSpace(s[1..][k]));
      [s[0]] + Underscored(s[1..])
  }

  /** How `Underscored` unfolds on a text with a known first character. */
  lemma UnderscoredCons(c: char, t: string)
    ensures Underscored([c] + t) == if IsSpace(c) then "_" + Underscored(TrimStart(t)) else [c] + Underscored(t)
  {
    var s := [c] + t;
    assert s[0] == c && s[1..] == t;
  }

  /** A run of white space followed by a non-space (or nothing) becomes exactly one '_'. */
  lemma UnderscoredRun(run: string, rest: string)
    requires |run| > 0 && AllSpace(run)
    requires rest == "" || !IsSpace(rest[0])
    ensures Underscored(run + rest) == "_" + Underscored(rest)
  {
    assert run + rest == [run[0]] + (run[1..] + rest);
    UnderscoredCons(run[0], run[1..] + rest);
    if rest == "" {
      assert run[1..] + rest == run[1..];
      AllSpaceTrimsAway(run[1..]);
    } else {
      TrimStartPadded(run[1..], rest);
    }
  }

  /** All-space text trims to nothing from the front. */
  lemma AllSpaceTrimsAway(s: string)
    requires AllSpace(s)
    ensures TrimStart(s) == ""
  {
  }

  /** Text without white space is copied through, and whatever follows is underscored on its own. */
  lemma {:induction false} UnderscoredWord(word: string, rest: string)
    requires forall k :: 0 <= k < |word| ==> !IsSpace(word[k])
    ensures Underscored(word + rest) == word + Underscored(rest)
  {
    if word != "" {
      var c, w := word[0], word[1..];
      assert !IsSpace(c);
      assert forall k :: 0 <= k < |w| ==> !IsSpace(w[k]) by {
        forall k | 0 <= k < |w| ensures !IsSpace(w[k]) { assert w[k] == word[k + 1]; }
      }
      calc {
        Underscored(word + rest);
        { assert word + rest == [c] + (w + rest); }
        Underscored([c] + (w + rest));
        { UnderscoredCons(c, w + rest); }
        [c] + Underscored(w + rest);
        { UnderscoredWord(w, rest); }
        [c] + (w + Underscored(rest));
        { assert [c] + w == word; }
        word + Underscored(rest);
      }
    } else {
      assert word + rest == rest;
    }
  }

  /** The key of a line: trimmed, lower-cased, whitespace runs turned to '_'. */
  function NormalizedKey(raw: string): string
  {
    Underscored(ToLower(Trim(raw)))
  }

  /** A character `value.replace(/[^0-9.]/g, '')` keeps. */
  predicate AmountChar(c: char)
  {
    '0' <= c <= '9' || c == '.'
  }

  /**
   * `value.replace(/[^0-9.]/g, '')`: the digits and dots, in order (with
   * AmountCharsAppend, a character is kept exactly when it is a digit or a dot).
   */
  function AmountChars(s: string): (r: string)
    ensures forall k :: 0 <= k < |r| ==> AmountChar(r[k])
    ensures |r| <= |s|
    ensures (forall k :: 0 <= k < |s| ==> AmountChar(s[k])) ==> r == s
    ensures |s| == 1 && !AmountChar(s[0]) ==> r == ""
  {
    if s == "" then ""
    else if AmountChar(s[0]) then
      assert (forall k :: 0 <= k < |s| ==> AmountChar(s[k])) ==> (forall k :: 0 <= k < |s[1..]| ==> AmountChar(s[1..][k]));
      [s[0]] + AmountChars(s[1..])
    else AmountChars(s[1..])
  }

  /** The injury answer: the lower-cased value mentions "yes" or "true". */
  predicate InjuryAnswer(value: string)
  {
    Contains(ToLower(value), "yes") || Contains(ToLower(value), "true")
  }

  /**
   * One line of the `forEach`: a line whose first ':' is past its start
   * supplies the field its key names, the first of type, amount,
   * description, customer, policy, location, police, injur that the key
   * contains; every other line supplies nothing.
   */
  function ExtractLine(e: Extracted, line: string): (r: Extracted)
    ensures ':' !in line ==> r == e
    ensures |line| > 0 && line[0] == ':' ==> r == e
  {
    match IndexOfChar(line, ':')
    case None => e
    case Some(i) =>
      if i == 0 then e
      else
        var key := NormalizedKey(line[..i]);
        var value := Trim(line[i + 1..]);
        if Contains(key, "type") then e.(claimType := Some(value))
        else if Contains(key, "amount") then e.(amount := Some(AmountChars(value)))
        else if Contains(key, "description") then e.(description := Some(value))
        else if Contains(key, "customer") then e.(customerId := Some(value))
        else if Contains(key, "policy") then e.(policyNumber := Some(value))
        else if Contains(key, "location") then e.(location := Some(value))
        else if Contains(key, "police") then e.(policeReport := Some(value))
        else if Contains(key, "injur") then e.(hasInjuries := Some(InjuryAnswer(value)))
        else e
  }

  /** The `extracted` object after the first lines, in order: later lines overwrite earlier ones. */
  function ExtractLines(lines: seq<string>): Extracted
  {
    if lines == [] then NothingExtracted
    else ExtractLine(ExtractLines(lines[..|lines| - 1]), lines[|lines| - 1])
  }

  /** The extracted value when there is one, the form's otherwise. */
  function Pick<T>(extracted: Option<T>, kept: T): T
  {
    if extracted.Some? then extracted.value else kept
  }

  /** `{...prev, ...extracted}`: the fields extracted replace the form's, the rest stay. */
  function Merge(f: Form, e: Extracted): (r: Form)
    ensures e == NothingExtracted ==> r == f
    ensures e.claimType.Some? ==> r.claimType == e.claimType.value
    ensures e.claimType.None? ==> r.claimType == f.claimType
    ensures e.amount.Some? ==> r.amount == e.amount.value
    ensures e.amount.None? ==> r.amount == f.amount
    ensures e.hasInjuries.Some? ==> r.hasInjuries == e.hasInjuries.value
    ensures e.hasInjuries.None? ==> r.hasInjuries == f.hasInjuries
    ensures e.description.Some? ==> r.description == e.description.value
    ensures e.description.None? ==> r.description == f.description
    ensures e.customerId.Some? ==> r.customerId == e.customerId.value
    ensures e.policyNumber.Some? ==> r.policyNumber == e.policyNumber.value
    ensures e.location.Some? ==> r.location == e.location.value
    ensures e.policeReport.Some? ==> r.policeReport == e.policeReport.value
    ensures e.customerId.None? ==> r.customerId == f.customerId
    ensures e.policyNumber.None? ==> r.policyNumber == f.policyNumber
    ensures e.location.None? ==> r.location == f.location
    ensures e.policeReport.None? ==> r.policeReport == f.policeReport
  {
    Form(Pick(e.claimType, f.claimType), Pick(e.amount, f.amount), Pick(e.description, f.description),
         Pick(e.customerId, f.customerId), Pick(e.policyNumber, f.policyNumber),
         Pick(e.location, f.location), Pick(e.policeReport, f.policeReport),
         Pick(e.hasInjuries, f.hasInjuries))
  }

  /** The date picker's state: nothing, or `new Date(parsed.date)`. */
  datatype Picked = NoDate | FromDump(value: Json) | Chosen(day: string)

  /**
   * `handleDumpParse` on non-blank text: a parsed value other than null
   * replaces the form (and sets the date when it has a truthy one); text
   * that does not parse, or parses to null (whose properties throw inside
   * the try), merges the fields its lines supply.
   */
  function ParsedDump(f: Form, date: Picked, dump: string, parsed: Option<Json>, toText: ToText): (r: (Form, Picked))
    ensures parsed.Some? && parsed.value != JNull ==> r.0 == JsonForm(parsed.value, toText)
    ensures parsed.Some? && parsed.value != JNull ==>
      r.1 == if Present(Prop(parsed, "date")) then FromDump(Prop(parsed, "date").value) else date
    ensures parsed.None? || parsed == Some(JNull) ==> r == (Merge(f, ExtractLines(Split(dump, '\n'))), date)
  {
    match parsed
    case Some(v) =>
      if v == JNull then (Merge(f, ExtractLines(Split(dump, '\n'))), date)
      else
        var d := Prop(parsed, "date");
        (JsonForm(v, toText), if Present(d) then FromDump(d.value) else date)
    case None => (Merge(f, ExtractLines(Split(dump, '\n'))), date)
  }

  // ------------------------------------------------------- extraction facts

  /** Lines none of which holds a colon leave the extraction empty (UnnamedKeyLine covers a key naming no field). */
  lemma {:induction false} ColonlessLinesExtractNothing(lines: seq<string>)
    requires forall k :: 0 <= k < |lines| ==> ':' !in lines[k]
    ensures ExtractLines(lines) == NothingExtracted
  {
    if lines != [] {
      ColonlessLinesExtractNothing(lines[..|lines| - 1]);
    }
  }

  /** A line `key:value` with a non-empty, colon-free key splits at the colon after the key. */
  lemma KeyedLine(key: string, value: string)
    requires key != "" && ':' !in key
    ensures var line := key + ":" + value;
      IndexOfChar(line, ':') == Some(|key|) && line[..|key|] == key && line[|key| + 1..] == value
  {
    var line := key + ":" + value;
    assert line[|key|] == ':' && line[..|key|] == key;
    IndexOfCharAt(line, ':', |key|);
    assert line[|key| + 1..] == value;
  }

  /** A key holding both "type" and "amount" supplies the type: the tests run in a fixed order. */
  lemma TypeBeatsAmount(e: Extracted, key: string, value: string)
    requires key != "" && ':' !in key
    requires Contains(NormalizedKey(key), "type")
    ensures ExtractLine(e, key + ":" + value) == e.(claimType := Some(Trim(value)))
  {
    KeyedLine(key, value);
  }

  /** A description line whose key names no earlier field supplies the trimmed value as the description. */
  lemma DescriptionLine(e: Extracted, key: string, value: string)
    requires key != "" && ':' !in key
    requires var k := NormalizedKey(key);
      !Contains(k, "type") && !Contains(k, "amount") && Contains(k, "description")
    ensures ExtractLine(e, key + ":" + value) == e.(description := Some(Trim(value)))
  {
    KeyedLine(key, value);
  }

  /** A customer line whose key names no earlier field supplies the trimmed value as the customer id. */
  lemma CustomerLine(e: Extracted, key: string, value: string)
    requires key != "" && ':' !in key
    requires var k := NormalizedKey(key);
      !Contains(k, "type") && !Contains(k, "amount") && !Contains(k, "description")
      && Contains(k, "customer")
    ensures ExtractLine(e, key + ":" + value) == e.(customerId := Some(Trim(value)))
  {
    KeyedLine(key, value);
  }

  /** A policy line whose key names no earlier field supplies the trimmed value as the policy number. */
  lemma PolicyLine(e: Extracted, key: string, value: string)
    requires key != "" && ':' !in key
    requires var k := NormalizedKey(key);
      !Contains(k, "type") && !Contains(k, "amount") && !Contains(k, "description")
      && !Contains(k, "customer") && Contains(k, "policy")
    ensures ExtractLine(e, key + ":" + value) == e.(policyNumber := Some(Trim(value)))
  {
    KeyedLine(key, value);
  }

  /** A location line whose key names no earlier field supplies the trimmed value as the location. */
  lemma LocationLine(e: Extracted, key: string, value: string)
    requires key != "" && ':' !in key
    requires var k := NormalizedKey(key);
      !Contains(k, "type") && !Contains(k, "amount") && !Contains(k, "description")
      && !Contains(k, "customer") && !Contains(k, "policy") && Contains(k, "location")
    ensures ExtractLine(e, key + ":" + value) == e.(location := Some(Trim(value)))
  {
    KeyedLine(key, value);
  }

  /** A police line whose key names no earlier field supplies the trimmed value as the police report. */
  lemma PoliceLine(e: Extracted, key: string, value: string)
    requires key != "" && ':' !in key
    requires var k := NormalizedKey(key);
      !Contains(k, "type") && !Contains(k, "amount") && !Contains(k, "description")
      && !Contains(k, "customer") && !Contains(k, "policy") && !Contains(k, "location")
      && Contains(k, "police")
    ensures ExtractLine(e, key + ":" + value) == e.(policeReport := Some(Trim(value)))
  {
    KeyedLine(key, value);
  }

  /** A line whose key names none of the eight fields supplies nothing. */
  lemma UnnamedKeyLine(e: Extracted, key: string, value: string)
    requires key != "" && ':' !in key
    requires var k := NormalizedKey(key);
      !Contains(k, "type") && !Contains(k, "amount") && !Contains(k, "description")
      && !Contains(k, "customer") && !Contains(k, "policy") && !Contains(k, "location")
      && !Contains(k, "police") && !Contains(k, "injur")
    ensures ExtractLine(e, key + ":" + value) == e
  {
    KeyedLine(key, value);
  }

  /** An amount line (whose key does not also name the type) supplies only the digits and dots of its trimmed value. */
  lemma AmountLineKeepsDigits(e: Extracted, key: string, value: string)
    requires key != "" && ':' !in key
    requires !Contains(NormalizedKey(key), "type") && Contains(NormalizedKey(key), "amount")
    ensures ExtractLine(e, key + ":" + value) == e.(amount := Some(AmountChars(Trim(value))))
  {
    KeyedLine(key, value);
  }

  /**
   * An injuries line whose key names no earlier field sets the flag exactly
   * when its trimmed value holds "yes" or "true" in any letter case.
   */
  lemma InjuryLineAnswer(e: Extracted, key: string, value: string)
    requires key != "" && ':' !in key
    requires var k := NormalizedKey(key);
      !Contains(k, "type") && !Contains(k, "amount") && !Contains(k, "description")
      && !Contains(k, "customer") && !Contains(k, "policy") && !Contains(k, "location")
      && !Contains(k, "police") && Contains(k, "injur")
    ensures var v := ToLower(Trim(value));
      ExtractLine(e, key + ":" + value) == e.(hasInjuries := Some(Contains(v, "yes") || Contains(v, "true")))
  {
    KeyedLine(key, value);
  }

  /** Keeping the digits and dots twice is keeping them once. */
  lemma AmountCharsIdempotent(s: string)
    ensures AmountChars(AmountChars(s)) == AmountChars(s)
  {
  }

  /**
   * Stripping works character by character: the kept characters of a
   * concatenation are those of its parts, in order.
   */
  lemma {:induction false} AmountCharsAppend(a: string, b: string)
    ensures AmountChars(a + b) == AmountChars(a) + AmountChars(b)
  {
    if a == "" {
      assert a + b == b;
    } else {
      assert (a + b)[0] == a[0] && (a + b)[1..] == a[1..] + b;
      AmountCharsAppend(a[1..], b);
    }
  }

  /** Every character kept is a character of the value. */
  lemma {:induction false} AmountCharsSubsequence(s: string)
    ensures multiset(AmountChars(s)) <= multiset(s)
  {
    if s != "" {
      AmountCharsSubsequence(s[1..]);
      assert s == [s[0]] + s[1..];
      assert multiset(s) == multiset{s[0]} + multiset(s[1..]);
    }
  }

  // --------------------------------------------------------- risk heuristic

  datatype Level = Low | Medium | High
  datatype Priority = Normal | Urgent | Critical

  /** The assessment: the score (None where JavaScript computes NaN), the level and the priority. */
  datatype Risk = Risk(score: Option<int>, level: Level, priority: Priority)

  function Min(a: int, b: int): int
  {
    if a <= b then a else b
  }

  /** A large amount or reported injuries: the branch that can reach HIGH, urgent and critical. */
  predicate Serious(amount: Option<real>, injuries: bool)
  {
    (amount.Some? && amount.value > 50000.0) || injuries
  }

  /**
   * The heuristic of `handleSubmit`, on `parseFloat(formData.amount)`.
   * Serious claims score `min(10, ⌊amount/10000⌋ + 3·injuries)`, HIGH from
   * 7, MEDIUM from 4, critical from 8, urgent from 5; others score
   * `min(6, ⌊amount/5000⌋ + 1)`, MEDIUM from 4, and stay normal. A NaN
   * amount makes a NaN score, which every comparison rejects: LOW, normal.
   */
  function Assess(amount: Option<real>, injuries: bool): (r: Risk)
    ensures r.score.None? <==> amount.None?
    ensures !Serious(amount, injuries) ==> r.level != High && r.priority == Normal
    ensures r.score.Some? ==> r.score.value <= if Serious(amount, injuries) then 10 else 6
    ensures r.priority == Critical ==> r.level == High
    ensures r.priority == Urgent ==> r.level != Low
    ensures r.score.None? ==> r.level == Low && r.priority == Normal
    ensures amount.Some? && Serious(amount, injuries) ==>
      r.score == Some(Min(10, (amount.value / 10000.0).Floor + if injuries then 3 else 0))
    ensures amount.Some? && !Serious(amount, injuries) ==> r.score == Some(Min(6, (amount.value / 5000.0).Floor + 1))
    ensures r.level == High <==> Serious(amount, injuries) && r.score.Some? && r.score.value >= 7
    ensures r.level == Medium <==> r.score.Some? && r.score.value >= 4 && r.level != High
    ensures r.priority == Critical <==> Serious(amount, injuries) && r.score.Some? && r.score.value >= 8
    ensures r.priority == Urgent <==> Serious(amount, injuries) && r.score.Some? && 5 <= r.score.value < 8
  {
    if Serious(amount, injuries) then
      var score := if amount.Some? then Some(Min(10, (amount.value / 10000.0).Floor + if injuries then 3 else 0)) else None;
      var level := if score.Some? && score.value >= 7 then High else if score.Some? && score.value >= 4 then Medium else Low;
      var priority := if score.Some? && score.value >= 8 then Critical else if score.Some? && score.value >= 5 then Urgent else Normal;
      Risk(score, level, priority)
    else
      var score := if amount.Some? then Some(Min(6, (amount.value / 5000.0).Floor + 1)) else None;
      Risk(score, if score.Some? && score.value >= 4 then Medium else Low, Normal)
  }

  /** Reported injuries on a claim of at least 40 000 make it HIGH. */
  lemma InjuriesWithLargeAmountAreHigh(amount: real)
    requires amount >= 40000.0
    ensures Assess(Some(amount), true).level == High
  {
    assert (amount / 10000.0).Floor >= 4;
  }

  /** Within the serious branch, a larger amount never lowers the score. */
  lemma SeriousScoreMonotone(a: real, b: real, injuries: bool)
    requires Serious(Some(a), injuries) && Serious(Some(b), injuries) && a <= b
    ensures Assess(Some(a), injuries).score.value <= Assess(Some(b), injuries).score.value
  {
    assert a / 10000.0 <= b / 10000.0;
  }

  /**
   * Across the 50 000 threshold the score falls: 50 000 without injuries
   * scores 6 on the ordinary scale, 50 001 scores 5 on the serious one.
   */
  lemma ScoreFallsAcrossThreshold()
    ensures Assess(Some(50000.0), false).score == Some(6)
    ensures Assess(Some(50001.0), false).score == Some(5)
  {
    assert (50000.0 / 5000.0).Floor == 10;
    assert (50001.0 / 10000.0).Floor == 5;
  }

  /** The adjuster tier for a level. */
  function Tier(level: Level): (t: string)
    ensures t == "Senior" <==> level == High
    ensures t == "Junior" <==> level == Low
  {
    match level
    case High => "Senior"
    case Medium => "Standard"
    case Low => "Junior"
  }

  /** The claim handed to `onSubmit` (the page adds the id, timestamp, agents and processing time). */
  datatype NewClaim = NewClaim(
    claimType: string,
    amount: Option<real>,
    status: string,
    currentAgent: string,
    risk: Risk,
    customerId: string,
    policyNumber: string,
    description: string,
    location: string,
    adjusterTier: string,
    processingNotes: seq<string>)

  /** The form's four required fields are all filled in (no trimming: a space counts). */
  predicate Complete(f: Form)
  {
    f.claimType != "" && f.amount != "" && f.customerId != "" && f.policyNumber != ""
  }

  /** The claim a complete form submits: new, queued for intake, assessed, with the tier its level gives. */
  function ClaimOf(f: Form, parseFloat: ParseFloat): (c: NewClaim)
    ensures c.status == "new" && c.currentAgent == "intake"
    ensures c.risk == Assess(parseFloat(f.amount), f.hasInjuries)
    ensures c.adjusterTier == Tier(c.risk.level)
    ensures c.claimType == f.claimType && c.customerId == f.customerId && c.policyNumber == f.policyNumber
    ensures c.description == f.description && c.location == f.location && c.amount == parseFloat(f.amount)
  {
    var risk := Assess(parseFloat(f.amount), f.hasInjuries);
    NewClaim(f.claimType, parseFloat(f.amount), "new", "intake", risk, f.customerId, f.policyNumber,
      f.description, f.location, Tier(risk.level), ["Claim submitted successfully", "Queued for intake processing"])
  }

  // -------------------------------------------------------------- the modal

  class Modal {
    var formData: Form
    var date: Picked
    var useDump: bool
    var dumpData: string
    var submitted: seq<NewClaim>

    constructor ()
      ensures formData == EmptyForm && date == NoDate && !useDump && dumpData == "" && submitted == []
    {
      formData := EmptyForm;
      date := NoDate;
      useDump := false;
      dumpData := "";
      submitted := [];
    }

    /** The `forEach` over the lines, filling `extracted`. */
    static method ExtractAll(lines: seq<string>) returns (extracted: Extracted)
      ensures extracted == ExtractLines(lines)
    {
      extracted := NothingExtracted;
      var i := 0;
      while i < |lines|
        invariant 0 <= i <= |lines|
        invariant extracted == ExtractLines(lines[..i])
      {
        assert lines[..i + 1][..i] == lines[..i];
        extracted := ExtractLine(extracted, lines[i]);
        i := i + 1;
      }
      assert lines[..|lines|] == lines;
    }

    /** `handleDumpParse`: blank text changes nothing; other text fills the form. */
    method HandleDumpParse(parse: JsonParse, toText: ToText)
      modifies this`formData, this`date
      ensures AllSpace(dumpData) ==> formData == old(formData) && date == old(date)
      ensures !AllSpace(dumpData) ==>
        (formData, date) == ParsedDump(old(formData), old(date), dumpData, parse(dumpData), toText)
    {
      if Trim(dumpData) == "" {
        return;
      }
      match parse(dumpData)
      case Some(parsed) =>
        if parsed == JNull {
          var extracted := ExtractAll(Split(dumpData, '\n'));
          formData := Merge(formData, extracted);
        } else {
          formData := JsonForm(parsed, toText);
          var d := Prop(Some(parsed), "date");
          if Present(d) {
            date := FromDump(d.value);
          }
        }
      case None =>
        var extracted := ExtractAll(Split(dumpData, '\n'));
        formData := Merge(formData, extracted);
    }

    /** The risk block of `handleSubmit`: score, level and priority start at 1, LOW, normal and are overwritten. */
    static method AssessRisk(amount: Option<real>, hasInjuries: bool) returns (risk: Risk)
      ensures risk == Assess(amount, hasInjuries)
    {
      var riskScore: Option<int> := Some(1);
      var riskLevel := Low;
      var priority := Normal;
      if (amount.Some? && amount.value > 50000.0) || hasInjuries {
        riskScore := if amount.Some? then Some(Min(10, (amount.value / 10000.0).Floor + if hasInjuries then 3 else 0)) else None;
        riskLevel := if riskScore.Some? && riskScore.value >= 7 then High else if riskScore.Some? && riskScore.value >= 4 then Medium else Low;
        priority := if riskScore.Some? && riskScore.value >= 8 then Critical else if riskScore.Some? && riskScore.value >= 5 then Urgent else Normal;
      } else {
        riskScore := if amount.Some? then Some(Min(6, (amount.value / 5000.0).Floor + 1)) else None;
        riskLevel := if riskScore.Some? && riskScore.value >= 4 then Medium else Low;
      }
      risk := Risk(riskScore, riskLevel, priority);
    }

    /**
     * `handleSubmit`: in dump mode with text, only a parse; with a required
     * field missing, nothing; otherwise one assessed claim submitted and the
     * whole modal reset.
     */
    method HandleSubmit(parse: JsonParse, parseFloat: ParseFloat, toText: ToText)
      modifies this`formData, this`date, this`useDump, this`dumpData, this`submitted
      ensures old(useDump && !AllSpace(dumpData)) ==>
        && (formData, date) == ParsedDump(old(formData), old(date), dumpData, parse(dumpData), toText)
        && useDump == old(useDump) && dumpData == old(dumpData) && submitted == old(submitted)
      ensures old(!(useDump && !AllSpace(dumpData)) && !Complete(formData)) ==>
        && formData == old(formData) && date == old(date) && useDump == old(useDump)
        && dumpData == old(dumpData) && submitted == old(submitted)
      ensures old(!(useDump && !AllSpace(dumpData)) && Complete(formData)) ==>
        && submitted == old(submitted) + [ClaimOf(old(formData), parseFloat)]
        && formData == EmptyForm && date == NoDate && !useDump && dumpData == ""
    {
      if useDump && Trim(dumpData) != "" {
        HandleDumpParse(parse, toText);
        return;
      }
      if formData.claimType == "" || formData.amount == "" || formData.customerId == "" || formData.policyNumber == "" {
        return;
      }
      var risk := AssessRisk(parseFloat(formData.amount), formData.hasInjuries);
      var claim := NewClaim(formData.claimType, parseFloat(formData.amount), "new", "intake",
        risk, formData.customerId, formData.policyNumber, formData.description, formData.location,
        Tier(risk.level), ["Claim submitted successfully", "Queued for intake processing"]);
      submitted := submitted + [claim];
      formData := EmptyForm;
      date := NoDate;
      useDump := false;
      dumpData := "";
    }
  }
}
