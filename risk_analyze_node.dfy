/**
 * nodes/risk_analyze_node.py: the additive fraud-score rules of the risk
 * node. The score starts at 1, each rule that fires adds its weight and one
 * reason, the total is capped to 1..10 and bucketed into Low, Medium, High.
 * The rule table (`Fires`, `Weight`) is shared with the backend risk agent,
 * which differs only in the wording of two reasons.
 */
module RiskAnalyzeNode {
  import opened Common
  import opened GraphState

  /**
   * The claim facts the rules read. Amounts are dollars as `real`; the two
   * counts are integers in the graph state and any JSON number in the
   * backend agent, so they are `real` here too.
   */
  datatype RiskFacts = RiskFacts(
    amount: real,
    previousClaims: real,
    tenureDays: real,
    injuries: bool,
    otherParty: bool)

  /** The five scoring rules. */
  datatype Rule = HighAmount | ManyClaims | NewCustomer | SoloInjury | InvalidAmount

  predicate Fires(rule: Rule, f: RiskFacts)
  {
    match rule
    case HighAmount => f.amount > 50000.0
    case ManyClaims => f.previousClaims >= 3.0
    case NewCustomer => f.tenureDays < 30.0
    case SoloInjury => f.injuries && !f.otherParty
    case InvalidAmount => f.amount <= 0.0
  }

  function Weight(rule: Rule): int
  {
    match rule
    case HighAmount => 3
    case ManyClaims => 2
    case NewCustomer => 2
    case SoloInjury => 1
    case InvalidAmount => 2
  }

  /** The reason text this node records for a rule. */
  function Reason(rule: Rule): string
  {
    match rule
    case HighAmount => "High claim amount (> $50,000 USD)"
    case ManyClaims => "Multiple previous claims (>= 3)"
    case NewCustomer => "New customer (< 30 days tenure)"
    case SoloInjury => "Injuries reported with no other party involved (Potential Solo Accident Fraud)"
    case InvalidAmount => "Invalid or zero claim amount"
  }

  /** The one-rule piece of `Fired`: the rule itself when it fires, else nothing. */
  function Pick(rule: Rule, f: RiskFacts): seq<Rule>
  {
    if Fires(rule, f) then [rule] else []
  }

  /** The rules that fire on `f`, in the order the source tests them. */
  function Fired(f: RiskFacts): seq<Rule>
  {
    Pick(HighAmount, f) + Pick(ManyClaims, f) + Pick(NewCustomer, f)
      + Pick(SoloInjury, f) + Pick(InvalidAmount, f)
  }

  function WeightSum(rs: seq<Rule>): int
  {
    if rs == [] then 0 else Weight(rs[0]) + WeightSum(rs[1..])
  }

  /** The texts of a list of rules under a wording, one per rule, in the same order. */
  function Texts(text: Rule -> string, rs: seq<Rule>): seq<string>
  {
    seq(|rs|, k requires 0 <= k < |rs| => text(rs[k]))
  }

  /** What a rule adds to the score: its weight when it fires, else nothing. */
  function Contribution(rule: Rule, f: RiskFacts): int
  {
    if Fires(rule, f) then Weight(rule) else 0
  }

  /** What a rule adds to the reasons: its one text when it fires, else nothing. */
  function Said(text: Rule -> string, rule: Rule, f: RiskFacts): seq<string>
  {
    if Fires(rule, f) then [text(rule)] else []
  }

  /** The score before the cap: 1 plus what each of the five rules contributes. */
  function RawScore(f: RiskFacts): int
  {
    1 + Contribution(HighAmount, f) + Contribution(ManyClaims, f) + Contribution(NewCustomer, f)
      + Contribution(SoloInjury, f) + Contribution(InvalidAmount, f)
  }

  /** `max(1, min(score, 10))`. */
  function Cap(score: int): (r: int)
    ensures 1 <= r <= 10
    ensures 1 <= score <= 10 ==> r == score
    ensures score < 1 ==> r == 1
    ensures score > 10 ==> r == 10
  {
    if score > 10 then 10 else if score < 1 then 1 else score
  }

  /** The category buckets: at most 3 Low, at most 6 Medium, else High. */
  function Category(score: int): (r: string)
    ensures r == "Low" <==> score <= 3
    ensures r == "Medium" <==> 4 <= score <= 6
    ensures r == "High" <==> score >= 7
  {
    if score <= 3 then "Low" else if score <= 6 then "Medium" else "High"
  }

  datatype RiskReport = RiskReport(claimId: string, riskScore: int, category: string, reasons: seq<string>)

  /** The report written into the state dict: every key present. */
  function ToFields(r: RiskReport): RiskReportFields
  {
    RiskReportFields(Some(r.claimId), Some(r.riskScore), Some(r.category), Some(r.reasons))
  }

  /** One rule of a scoring body: when it fires, `score += weight` and its text is appended. */
  method ApplyRule(rule: Rule, f: RiskFacts, score: int, reasons: seq<string>, text: Rule -> string)
    returns (score': int, reasons': seq<string>)
    ensures score' == score + Contribution(rule, f)
    ensures reasons' == reasons + Said(text, rule, f)
  {
    score', reasons' := score, reasons;
    if Fires(rule, f) {
      score' := score' + Weight(rule);
      reasons' := reasons' + [text(rule)];
    }
  }

  /**
   * A scoring body: the five rules applied in turn to a running score that
   * starts at 1 and a reason list that starts empty, then the cap and the
   * buckets. `text` is the wording of the reasons.
   */
  method Score(claimId: string, f: RiskFacts, text: Rule -> string) returns (report: RiskReport)
    ensures report.claimId == claimId
    ensures report.riskScore == Cap(RawScore(f)) && 1 <= report.riskScore <= 10
    ensures report.category == Category(report.riskScore)
    ensures report.reasons == Texts(text, Fired(f))
  {
    var score := 1;
    var reasons: seq<string> := [];
    score, reasons := ApplyRule(HighAmount, f, score, reasons, text);
    score, reasons := ApplyRule(ManyClaims, f, score, reasons, text);
    score, reasons := ApplyRule(NewCustomer, f, score, reasons, text);
    score, reasons := ApplyRule(SoloInjury, f, score, reasons, text);
    score, reasons := ApplyRule(InvalidAmount, f, score, reasons, text);
    assert [] + Said(text, HighAmount, f) == Said(text, HighAmount, f);
    TextsFormula(text, f);
    var finalScore := Cap(score);
    var category := Category(finalScore);
    report := RiskReport(claimId, finalScore, category, reasons);
  }

  /** The report this node computes for a claim id and its facts. */
  function NodeReport(claimId: string, f: RiskFacts): RiskReport
  {
    var s := Cap(RawScore(f));
    RiskReport(claimId, s, Category(s), Texts(Reason, Fired(f)))
  }

  /** What happened to a node call: it returned, or Python raised KeyError on a missing key. */
  datatype NodeOutcome = Returned | KeyErrorRaised

  function FactsOf(amount: real, previousClaims: int, tenureDays: int, injuries: bool, otherParty: bool): RiskFacts
  {
    RiskFacts(amount, previousClaims as real, tenureDays as real, injuries, otherParty)
  }

  /**
   * `risk_assessment_agent`: reads the claim facts from the state, scores
   * them and writes `risk_assessment_report`, the only key it changes.
   * `state["claim_id"]` raises KeyError when the key is absent, before
   * anything is written.
   */
  method RiskAssessmentAgent(state: State) returns (outcome: NodeOutcome)
    modifies state`riskAssessmentReport
    ensures outcome == KeyErrorRaised <==> state.claimId.None?
    ensures state.claimId.None? ==> state.riskAssessmentReport == old(state.riskAssessmentReport)
    ensures state.claimId.Some? ==>
      state.riskAssessmentReport == Some(ToFields(NodeReport(state.claimId.value,
        FactsOf(state.amount, state.previousClaimsCount, state.customerTenureDays,
                state.injuriesReported, state.otherPartyInvolved))))
  {
    if state.claimId.None? {
      return KeyErrorRaised;
    }
    var f := FactsOf(state.amount, state.previousClaimsCount, state.customerTenureDays,
                     state.injuriesReported, state.otherPartyInvolved);
    var report := Score(state.claimId.value, f, Reason);
    state.riskAssessmentReport := Some(ToFields(report));
    outcome := Returned;
  }

  // ------------------------------------------------------------ properties

  function Ind(b: bool, w: int): int
  {
    if b then w else 0
  }

  /** The uncapped score in closed form, one indicator term per rule. */
  lemma RawScoreFormula(f: RiskFacts)
    ensures RawScore(f) == 1 + Ind(f.amount > 50000.0, 3) + Ind(f.previousClaims >= 3.0, 2)
                             + Ind(f.tenureDays < 30.0, 2) + Ind(f.injuries && !f.otherParty, 1)
                             + Ind(f.amount <= 0.0, 2)
  {
  }

  /** The uncapped score is 1 plus the total weight of the fired rules. */
  lemma RawScoreIsWeightSum(f: RiskFacts)
    ensures RawScore(f) == 1 + WeightSum(Fired(f))
  {
    var p1, p2, p3, p4, p5 := Pick(HighAmount, f), Pick(ManyClaims, f), Pick(NewCustomer, f),
                              Pick(SoloInjury, f), Pick(InvalidAmount, f);
    WeightSumAppend(p1 + p2 + p3 + p4, p5);
    WeightSumAppend(p1 + p2 + p3, p4);
    WeightSumAppend(p1 + p2, p3);
    WeightSumAppend(p1, p2);
    WeightSumPick(HighAmount, f);
    WeightSumPick(ManyClaims, f);
    WeightSumPick(NewCustomer, f);
    WeightSumPick(SoloInjury, f);
    WeightSumPick(InvalidAmount, f);
  }

  lemma WeightSumPick(rule: Rule, f: RiskFacts)
    ensures WeightSum(Pick(rule, f)) == Contribution(rule, f)
  {
    if Fires(rule, f) {
      assert Pick(rule, f)[1..] == [];
    }
  }

  lemma {:induction false} WeightSumAppend(a: seq<Rule>, b: seq<Rule>)
    ensures WeightSum(a + b) == WeightSum(a) + WeightSum(b)
  {
    if a == [] {
      assert a + b == b;
    } else {
      assert (a + b)[0] == a[0];
      assert (a + b)[1..] == a[1..] + b;
      WeightSumAppend(a[1..], b);
    }
  }

  lemma TextsAppend(text: Rule -> string, a: seq<Rule>, b: seq<Rule>)
    ensures Texts(text, a + b) == Texts(text, a) + Texts(text, b)
  {
    assert forall k | 0 <= k < |a + b| :: (a + b)[k] == if k < |a| then a[k] else b[k - |a|];
  }

  lemma TextsPick(text: Rule -> string, rule: Rule, f: RiskFacts)
    ensures Texts(text, Pick(rule, f)) == Said(text, rule, f)
  {
  }

  /** The reasons of the fired rules, written out rule by rule in the order the source tests them. */
  lemma TextsFormula(text: Rule -> string, f: RiskFacts)
    ensures Texts(text, Fired(f)) == Said(text, HighAmount, f) + Said(text, ManyClaims, f)
      + Said(text, NewCustomer, f) + Said(text, SoloInjury, f) + Said(text, InvalidAmount, f)
  {
    var p1, p2, p3, p4, p5 := Pick(HighAmount, f), Pick(ManyClaims, f), Pick(NewCustomer, f),
                              Pick(SoloInjury, f), Pick(InvalidAmount, f);
    TextsAppend(text, p1 + p2 + p3 + p4, p5);
    TextsAppend(text, p1 + p2 + p3, p4);
    TextsAppend(text, p1 + p2, p3);
    TextsAppend(text, p1, p2);
    TextsPick(text, HighAmount, f);
    TextsPick(text, ManyClaims, f);
    TextsPick(text, NewCustomer, f);
    TextsPick(text, SoloInjury, f);
    TextsPick(text, InvalidAmount, f);
  }

  /**
   * The high-amount and the invalid-amount rules exclude each other, so the
   * uncapped score lies in 1..9 and the cap never changes it.
   */
  lemma RawScoreInRange(f: RiskFacts)
    ensures !(Fires(HighAmount, f) && Fires(InvalidAmount, f))
    ensures 1 <= RawScore(f) <= 9
    ensures Cap(RawScore(f)) == RawScore(f)
  {
  }

  /** With no rule firing the report is score 1, Low, no reasons. */
  lemma NoRuleFires(claimId: string, f: RiskFacts)
    requires forall rule :: !Fires(rule, f)
    ensures Fired(f) == []
    ensures NodeReport(claimId, f) == RiskReport(claimId, 1, "Low", [])
  {
    assert !Fires(HighAmount, f) && !Fires(ManyClaims, f) && !Fires(NewCustomer, f);
    assert !Fires(SoloInjury, f) && !Fires(InvalidAmount, f);
  }

  /** A rule is among the fired ones exactly when it fires. */
  lemma FiredMembers(f: RiskFacts)
    ensures |Fired(f)| <= 5
    ensures forall rule :: rule in Fired(f) <==> Fires(rule, f)
  {
    forall rule ensures rule in Fired(f) <==> Fires(rule, f) {
      var p1, p2, p3, p4, p5 := Pick(HighAmount, f), Pick(ManyClaims, f), Pick(NewCustomer, f),
                                Pick(SoloInjury, f), Pick(InvalidAmount, f);
      assert Fired(f) == p1 + p2 + p3 + p4 + p5;
      assert rule in Fired(f) <==> rule in p1 || rule in p2 || rule in p3 || rule in p4 || rule in p5;
    }
  }

  /** Each fired rule contributes exactly one reason, and no other reason appears. */
  lemma ReasonsFollowRules(f: RiskFacts)
    ensures |Texts(Reason, Fired(f))| == |Fired(f)|
    ensures forall rule :: Reason(rule) in Texts(Reason, Fired(f)) <==> Fires(rule, f)
  {
    FiredMembers(f);
    var fired := Fired(f);
    var rs := Texts(Reason, fired);
    forall rule ensures Reason(rule) in rs <==> Fires(rule, f) {
      if Reason(rule) in rs {
        var k :| 0 <= k < |rs| && rs[k] == Reason(rule);
        ReasonInjective(fired[k], rule);
        assert fired[k] in fired;
      }
      if Fires(rule, f) {
        var k :| 0 <= k < |fired| && fired[k] == rule;
        assert rs[k] == Reason(rule);
      }
    }
  }

  /** Distinct rules record distinct reasons. */
  lemma ReasonInjective(a: Rule, b: Rule)
    requires Reason(a) == Reason(b)
    ensures a == b
  {
    ReasonMark(a);
    ReasonMark(b);
  }

  /** The next-to-last character of each reason, which already tells the reasons apart. */
  function Mark(rule: Rule): char
  {
    match rule
    case HighAmount => 'D'
    case ManyClaims => '3'
    case NewCustomer => 'e'
    case SoloInjury => 'd'
    case InvalidAmount => 'n'
  }

  lemma ReasonMark(rule: Rule)
    ensures |Reason(rule)| > 2 && Reason(rule)[|Reason(rule)| - 2] == Mark(rule)
  {
    match rule
    case HighAmount =>
    case ManyClaims =>
    case NewCustomer =>
    case SoloInjury =>
    case InvalidAmount =>
  }
}
