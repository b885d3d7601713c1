/**
 * Frontend/fnol-flow-vision/src/components/ClaimSubmissionModal.tsx: the
 * claim form of the processing dashboard, its validation, and the "dump"
 * tab that submits pasted JSON or free text. `Number`, `parseFloat`,
 * `JSON.parse` and `new Date()` are parameters; what `onSubmit` receives is
 * recorded in the modal's `submitted` list.
 */
module ClaimSubmissionModal {
  import opened Common
  import opened Text
  import opened AgentText
  import opened JsValue

  /** JavaScript `Number(s)`: a number, or None for NaN. */
  type ToNumber = string -> Option<real>

  /** `parseFloat(v)` on a property that may be undefined: a number, or None for NaN. */
  type ParseFloat = Option<Json> -> Option<real>

  /** `JSON.parse(text)`: the value, or None when it throws. */
  type JsonParse = string -> Option<Json>

  /** The form's state; `date` is the day picked in the calendar, if any. */
  datatype Form = Form(
    claimType: string,
    amount: string,
    description: string,
    customerId: string,
    policyNumber: string,
    date: Option<string>,
    location: string,
    policeReport: string,
    injuries: bool)

  /** The form as it starts, and as a successful submit leaves it. */
  const EmptyForm := Form("", "", "", "", "", None, "", "", false)

  /** The date a payload carries: the picked day, `new Date(parsed.date)`, or `new Date()`. */
  datatype When = Picked(day: string) | FromDump(value: Json) | Now

  /**
   * What `onSubmit` receives. The dump path passes parsed JSON values
   * through unchanged, so the fields are JSON values; the form path passes
   * strings and a boolean.
   */
  datatype Payload = Payload(
    claimType: Json,
    amount: real,
    customerId: Json,
    policyNumber: Json,
    description: Json,
    date: When,
    location: Json,
    policeReport: Json,
    injuries: Json)

  // ------------------------------------------------------------ validation

  /** The form's fields, by the names `handleChange` is called with; they are also the error object's keys. */
  datatype Field = TypeField | AmountField | DescriptionField | CustomerIdField | PolicyNumberField
    | DateField | LocationField | PoliceReportField | InjuriesField

  /** The fields `validateForm` checks, which are the error keys it can produce. */
  const RequiredFields: set<Field> :=
    {TypeField, AmountField, DescriptionField, CustomerIdField, PolicyNumberField, DateField, LocationField}

  /** The amount test: empty, not a number, or not positive. */
  predicate BadAmount(amount: string, toNumber: ToNumber)
  {
    amount == "" || toNumber(amount).None? || toNumber(amount).value <= 0.0
  }

  /** A form that passes every check of `validateForm`. */
  predicate Valid(f: Form, toNumber: ToNumber)
  {
    f.claimType != "" && !BadAmount(f.amount, toNumber)
    && !AllSpace(f.description) && !AllSpace(f.customerId) && !AllSpace(f.policyNumber)
    && f.date.Some? && !AllSpace(f.location)
  }

  /** The message shown for a failed check. */
  function Message(field: Field): (m: string)
    ensures m != ""
  {
    match field
    case TypeField => "Claim type is required"
    case AmountField => "Valid amount is required"
    case DescriptionField => "Description is required"
    case CustomerIdField => "Customer ID is required"
    case PolicyNumberField => "Policy number is required"
    case DateField => "Date is required"
    case LocationField => "Location is required"
    case _ => "Required"
  }

  /**
   * The check `validateForm` makes on one field. For the text fields it is
   * `!s.trim()`, which holds exactly when the text is all whitespace
   * (Text.Trim's contract).
   */
  predicate Fails(f: Form, field: Field, toNumber: ToNumber)
  {
    match field
    case TypeField => f.claimType == ""
    case AmountField => BadAmount(f.amount, toNumber)
    case DescriptionField => AllSpace(f.description)
    case CustomerIdField => AllSpace(f.customerId)
    case PolicyNumberField => AllSpace(f.policyNumber)
    case DateField => f.date.None?
    case LocationField => AllSpace(f.location)
    case _ => false
  }

  /**
   * The error object `validateForm` builds: one message per failed check,
   * keyed by field. Police report and injuries are never checked.
   */
  function FormErrors(f: Form, toNumber: ToNumber): (r: map<Field, string>)
    ensures r.Keys <= RequiredFields
    ensures forall k :: k in r ==> r[k] != ""
    ensures TypeField in r <==> f.claimType == ""
    ensures AmountField in r <==> BadAmount(f.amount, toNumber)
    ensures DescriptionField in r <==> AllSpace(f.description)
    ensures CustomerIdField in r <==> AllSpace(f.customerId)
    ensures PolicyNumberField in r <==> AllSpace(f.policyNumber)
    ensures DateField in r <==> f.date.None?
    ensures LocationField in r <==> AllSpace(f.location)
    ensures r == map[] <==> Valid(f, toNumber)
  {
    var r := map k | k in RequiredFields && Fails(f, k, toNumber) :: Message(k);
    forall k | k in RequiredFields
      ensures k in r <==> Fails(f, k, toNumber)
    {
    }
    assert TypeField in RequiredFields && AmountField in RequiredFields && DateField in RequiredFields;
    assert DescriptionField in RequiredFields && CustomerIdField in RequiredFields;
    assert PolicyNumberField in RequiredFields && LocationField in RequiredFields;
    r
  }

  /**
   * `{...formData, amount: Number(formData.amount)}` for a valid form: the
   * amount as a positive number, the text fields as entered.
   */
  function FormPayload(f: Form, toNumber: ToNumber): (r: Payload)
    requires Valid(f, toNumber)
    ensures r.amount > 0.0 && Some(r.amount) == toNumber(f.amount)
    ensures r.claimType == JStr(f.claimType) && r.customerId == JStr(f.customerId)
    ensures r.policyNumber == JStr(f.policyNumber) && r.description == JStr(f.description)
    ensures r.location == JStr(f.location) && r.policeReport == JStr(f.policeReport)
    ensures r.date == Picked(f.date.value) && r.injuries == JBool(f.injuries)
  {
    Payload(JStr(f.claimType), toNumber(f.amount).value, JStr(f.customerId), JStr(f.policyNumber),
      JStr(f.description), Picked(f.date.value), JStr(f.location), JStr(f.policeReport), JBool(f.injuries))
  }

  /** A reset form fails validation on every required field. */
  lemma EmptyFormFailsEverywhere(toNumber: ToNumber)
    ensures FormErrors(EmptyForm, toNumber).Keys == RequiredFields
  {
    assert AllSpace("");
  }

  // ---------------------------------------------------------- field edits

  /** A value an input hands to `handleChange`. */
  datatype FieldValue = Text(s: string) | Day(day: Option<string>) | Check(b: bool)

  /** The inputs hand text to text fields, a day to the date and a flag to the checkbox. */
  predicate Fits(field: Field, v: FieldValue)
  {
    match field
    case DateField => v.Day?
    case InjuriesField => v.Check?
    case _ => v.Text?
  }

  /** A field's current value. */
  function FieldOf(f: Form, field: Field): (v: FieldValue)
    ensures Fits(field, v)
  {
    match field
    case TypeField => Text(f.claimType)
    case AmountField => Text(f.amount)
    case DescriptionField => Text(f.description)
    case CustomerIdField => Text(f.customerId)
    case PolicyNumberField => Text(f.policyNumber)
    case DateField => Day(f.date)
    case LocationField => Text(f.location)
    case PoliceReportField => Text(f.policeReport)
    case InjuriesField => Check(f.injuries)
  }

  /** `{...prev, [field]: value}`: the named field takes the value, every other field keeps its own. */
  function SetField(f: Form, field: Field, v: FieldValue): (r: Form)
    requires Fits(field, v)
    ensures FieldOf(r, field) == v
    ensures forall other :: other != field ==> FieldOf(r, other) == FieldOf(f, other)
  {
    match field
    case TypeField => f.(claimType := v.s)
    case AmountField => f.(amount := v.s)
    case DescriptionField => f.(description := v.s)
    case CustomerIdField => f.(customerId := v.s)
    case PolicyNumberField => f.(policyNumber := v.s)
    case DateField => f.(date := v.day)
    case LocationField => f.(location := v.s)
    case PoliceReportField => f.(policeReport := v.s)
    case InjuriesField => f.(injuries := v.b)
  }

  /**
   * The errors after `handleChange(field, …)`: a truthy message for the
   * field is blanked (the key stays, holding ""); nothing else changes.
   */
  function ClearedError(errors: map<Field, string>, field: Field): (r: map<Field, string>)
    ensures r.Keys == errors.Keys
    ensures field in r ==> r[field] == ""
    ensures forall k :: k in errors && k != field ==> r[k] == errors[k]
  {
    if field in errors && errors[field] != "" then errors[field := ""] else errors
  }

  // ------------------------------------------------------------- dump tab

  /** `value || fallback` on a property that may be undefined. */
  function Or(j: Option<Json>, fallback: Json): (r: Json)
    ensures Present(j) ==> r == j.value
    ensures !Present(j) ==> r == fallback
  {
    if j.Some? && JsTruthy(j.value) then j.value else fallback
  }

  /** The first 200 characters (`substring(0, 200)`). */
  function First200(s: string): (r: string)
    ensures |r| <= 200 && r <= s
    ensures |s| <= 200 ==> r == s
  {
    if |s| <= 200 then s else s[..200]
  }

  /** The payload for dump text that is not JSON: all of it becomes the description. */
  function TextPayload(dump: string): (r: Payload)
    ensures r.description == JStr(dump) && r.date == Now
    ensures r.claimType == JStr("other") && r.amount == 0.0
    ensures r.customerId == JStr("N/A") && r.policyNumber == JStr("N/A") && r.location == JStr("N/A")
    ensures r.policeReport == JStr("") && r.injuries == JBool(false)
  {
    Payload(JStr("other"), 0.0, JStr("N/A"), JStr("N/A"), JStr(dump), Now, JStr("N/A"), JStr(""), JBool(false))
  }

  /**
   * What `handleDumpSubmit` passes to `onSubmit`: the parsed value's fields
   * with their fallbacks, or the text payload when parsing throws or yields
   * null (reading a property of null throws inside the same try).
   */
  function DumpPayload(dump: string, parsed: Option<Json>, parseFloat: ParseFloat): (r: Payload)
    ensures parsed.None? || parsed == Some(JNull) ==> r == TextPayload(dump)
    ensures parsed.Some? && parsed != Some(JNull) ==> r == JsonPayload(dump, parsed.value, parseFloat)
  {
    match parsed
    case None => TextPayload(dump)
    case Some(JNull) => TextPayload(dump)
    case Some(v) => JsonPayload(dump, v, parseFloat)
  }

  /** The payload built from a parsed value: each property, or its fallback when it is missing or falsy. */
  function JsonPayload(dump: string, v: Json, parseFloat: ParseFloat): (r: Payload)
    ensures var p := Some(v);
      && r.claimType == Or(Prop(p, "type"), JStr("other"))
      && r.customerId == Or(Prop(p, "customer_id"), JStr("N/A"))
      && r.policyNumber == Or(Prop(p, "policy_number"), JStr("N/A"))
      && r.location == Or(Prop(p, "location"), JStr("N/A"))
      && r.policeReport == Or(Prop(p, "police_report"), JStr(""))
      && r.injuries == Or(Prop(p, "injuries"), JBool(false))
      && r.description == Or(Prop(p, "description"), JStr(First200(dump)))
      && (r.date == if Present(Prop(p, "date")) then FromDump(Prop(p, "date").value) else Now)
      && (r.amount == if parseFloat(Prop(p, "amount")).Some? then parseFloat(Prop(p, "amount")).value else 0.0)
  {
    var p := Some(v);
    var amount := parseFloat(Prop(p, "amount"));
    var date := match Prop(p, "date") case Some(d) => if JsTruthy(d) then FromDump(d) else Now case None => Now;
    Payload(
      Or(Prop(p, "type"), JStr("other")),
      if amount.Some? && amount.value != 0.0 then amount.value else 0.0,
      Or(Prop(p, "customer_id"), JStr("N/A")),
      Or(Prop(p, "policy_number"), JStr("N/A")),
      Or(Prop(p, "description"), JStr(First200(dump))),
      date,
      Or(Prop(p, "location"), JStr("N/A")),
      Or(Prop(p, "police_report"), JStr("")),
      Or(Prop(p, "injuries"), JBool(false)))
  }

  /** A JSON object without a truthy description is described by the first 200 characters of the dump. */
  lemma JsonWithoutDescription(dump: string, fields: map<string, Json>, parseFloat: ParseFloat)
    requires "description" !in fields || !JsTruthy(fields["description"])
    ensures DumpPayload(dump, Some(JObject(fields)), parseFloat).description == JStr(First200(dump))
  {
  }

  /** A JSON value that is not an object (a number, a string, a list) submits every fallback. */
  lemma JsonNonObjectUsesFallbacks(dump: string, v: Json, parseFloat: ParseFloat)
    requires !v.JObject? && !v.JNull?
    ensures var r := DumpPayload(dump, Some(v), parseFloat);
      r.claimType == JStr("other") && r.customerId == JStr("N/A") && r.date == Now
      && r.description == JStr(First200(dump))
      && r.amount == if parseFloat(None).Some? then parseFloat(None).value else 0.0
  {
  }

  // ----------------------------------------------------------- the modal

  /** The modal's state, and the payloads `onSubmit` has received so far. */
  class Modal {
    var formData: Form
    var errors: map<Field, string>
    var dumpData: string
    var activeTab: string
    var submitted: seq<Payload>

    constructor ()
      ensures formData == EmptyForm && errors == map[] && dumpData == "" && activeTab == "form"
      ensures submitted == []
    {
      formData := EmptyForm;
      errors := map[];
      dumpData := "";
      activeTab := "form";
      submitted := [];
    }

    /** `validateForm`: the error object replaces the old one; true iff it is empty. */
    method ValidateForm(toNumber: ToNumber) returns (ok: bool)
      modifies this`errors
      ensures errors == FormErrors(formData, toNumber)
      ensures ok <==> Valid(formData, toNumber)
    {
      var newErrors := FormErrors(formData, toNumber);
      errors := newErrors;
      ok := |newErrors.Keys| == 0;
    }

    /**
     * `handleSubmit`: a valid form is submitted with a numeric amount and
     * the form and errors reset; an invalid one only shows its errors.
     */
    method HandleSubmit(toNumber: ToNumber)
      modifies this`errors, this`formData, this`submitted
      ensures Valid(old(formData), toNumber) ==>
        && submitted == old(submitted) + [FormPayload(old(formData), toNumber)]
        && formData == EmptyForm && errors == map[]
      ensures !Valid(old(formData), toNumber) ==>
        && submitted == old(submitted) && formData == old(formData)
        && errors == FormErrors(old(formData), toNumber)
    {
      var ok := ValidateForm(toNumber);
      if ok {
        submitted := submitted + [FormPayload(formData, toNumber)];
        formData := EmptyForm;
        errors := map[];
      }
    }

    /** `handleChange(field, value)`: the field takes the value; its error, if shown, is blanked. */
    method HandleChange(field: Field, v: FieldValue)
      requires Fits(field, v)
      modifies this`formData, this`errors
      ensures formData == SetField(old(formData), field, v)
      ensures errors == ClearedError(old(errors), field)
    {
      formData := SetField(formData, field, v);
      if field in errors && errors[field] != "" {
        errors := errors[field := ""];
      }
    }

    /** `handleDumpSubmit`: one payload submitted, then the dump cleared and the form tab shown. */
    method HandleDumpSubmit(parse: JsonParse, parseFloat: ParseFloat)
      modifies this`dumpData, this`activeTab, this`submitted
      ensures submitted == old(submitted) + [DumpPayload(old(dumpData), parse(old(dumpData)), parseFloat)]
      ensures dumpData == "" && activeTab == "form"
    {
      submitted := submitted + [DumpPayload(dumpData, parse(dumpData), parseFloat)];
      dumpData := "";
      activeTab := "form";
    }
  }
}
