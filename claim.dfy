/**
 * The claim record of the operations dashboard (Frontend/src/types/dashboard.ts),
 * shared by its pages, and the list operations they apply to it. The
 * record's string unions (type, status, current agent, level, priority) are
 * kept as strings: the pages compare and search them as text.
 */
module ClaimRecord {
  import opened Common
  import opened Text

  datatype Claim = Claim(
    claimId: string,
    claimType: string,
    amount: real,
    status: string,
    currentAgent: string,
    agentsCompleted: seq<string>,
    riskScore: real,
    riskLevel: string,
    priority: string,
    processingTime: real,
    timestamp: string,
    customerId: Option<string>,
    policyNumber: Option<string>,
    description: Option<string>,
    location: Option<string>,
    adjusterTier: Option<string>,
    processingNotes: Option<seq<string>>)

  /**
   * What a submit modal hands a page: a claim without id, timestamp,
   * completed agents and processing time.
   */
  datatype ClaimData = ClaimData(
    claimType: string,
    amount: real,
    status: string,
    currentAgent: string,
    riskScore: real,
    riskLevel: string,
    priority: string,
    customerId: Option<string>,
    policyNumber: Option<string>,
    description: Option<string>,
    location: Option<string>,
    adjusterTier: Option<string>,
    processingNotes: Option<seq<string>>)

  /**
   * `{...newClaim, claim_id, timestamp, agents_completed: [], processing_time: 0}`:
   * the submitted fields copied unchanged, no agent done yet, no time spent.
   */
  function Stamped(d: ClaimData, claimId: string, timestamp: string): (c: Claim)
    ensures c.claimId == claimId && c.timestamp == timestamp
    ensures c.agentsCompleted == [] && c.processingTime == 0.0
    ensures Unstamped(c) == d
  {
    Claim(claimId, d.claimType, d.amount, d.status, d.currentAgent, [], d.riskScore, d.riskLevel,
      d.priority, 0.0, timestamp, d.customerId, d.policyNumber, d.description, d.location,
      d.adjusterTier, d.processingNotes)
  }

  /** The submitted fields of a claim. */
  function Unstamped(c: Claim): ClaimData
  {
    ClaimData(c.claimType, c.amount, c.status, c.currentAgent, c.riskScore, c.riskLevel, c.priority,
      c.customerId, c.policyNumber, c.description, c.location, c.adjusterTier, c.processingNotes)
  }

  /** `claims.filter(keep)`: the claims that pass, in their order. */
  function Filter(claims: seq<Claim>, keep: Claim -> bool): (r: seq<Claim>)
    ensures |r| <= |claims|
    ensures forall c :: c in r <==> c in claims && keep(c)
    ensures SubList(r, claims)
    ensures forall c :: multiset(r)[c] == if keep(c) then multiset(claims)[c] else 0
  {
    if claims == [] then []
    else
      var rest := Filter(claims[1..], keep);
      assert claims == [claims[0]] + claims[1..];
      if keep(claims[0]) then [claims[0]] + rest else rest
  }

  /** A filter that passes everything keeps the whole list. */
  lemma {:induction false} FilterAll(claims: seq<Claim>, keep: Claim -> bool)
    requires forall c :: c in claims ==> keep(c)
    ensures Filter(claims, keep) == claims
  {
    if claims != [] {
      FilterAll(claims[1..], keep);
    }
  }

  /** A stricter test keeps a sub-list of what the looser test keeps. */
  lemma {:induction false} FilterNarrows(claims: seq<Claim>, strict: Claim -> bool, loose: Claim -> bool)
    requires forall c :: c in claims && strict(c) ==> loose(c)
    ensures SubList(Filter(claims, strict), Filter(claims, loose))
  {
    if claims != [] {
      FilterNarrows(claims[1..], strict, loose);
      var rest := Filter(claims[1..], strict);
      var looseRest := Filter(claims[1..], loose);
      if strict(claims[0]) {
        assert Filter(claims, strict) == [claims[0]] + rest;
        assert Filter(claims, loose) == [claims[0]] + looseRest;
        assert ([claims[0]] + rest)[1..] == rest;
        assert ([claims[0]] + looseRest)[1..] == looseRest;
      } else if loose(claims[0]) {
        assert Filter(claims, loose) == [claims[0]] + looseRest;
        SubListSkip(rest, claims[0], looseRest);
      }
    }
  }

  // ---------------------------------------------------------------- search

  /** `s.toLowerCase().includes(term.toLowerCase())`. */
  predicate MatchesText(s: string, term: string)
  {
    Contains(ToLower(s), ToLower(term))
  }

  /**
   * The search test both claim lists apply: the term, ignoring case, occurs
   * in the claim id, the customer id (when there is one) or the claim type.
   */
  predicate MatchesSearch(c: Claim, term: string)
    ensures term == "" ==> MatchesSearch(c, term)
  {
    assert ToLower("") == "";
    ContainsEmpty(ToLower(c.claimId));
    MatchesText(c.claimId, term)
    || (match c.customerId case Some(customer) => MatchesText(customer, term) case None => false)
    || MatchesText(c.claimType, term)
  }

  /** A longer search term, one that contains a shorter one, matches only claims the shorter one matches. */
  lemma LongerSearchNarrows(c: Claim, short: string, long: string)
    requires Contains(long, short) && MatchesSearch(c, long)
    ensures MatchesSearch(c, short)
  {
    LowerKeepsContains(long, short);
    if MatchesText(c.claimId, long) {
      ContainsTrans(ToLower(c.claimId), ToLower(long), ToLower(short));
    } else if MatchesText(c.claimType, long) {
      ContainsTrans(ToLower(c.claimType), ToLower(long), ToLower(short));
    } else {
      match c.customerId
      case Some(customer) =>
        ContainsTrans(ToLower(customer), ToLower(long), ToLower(short));
    }
  }
}
