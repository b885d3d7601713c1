/**
 * src/pages/Claims.tsx: the claims table with its search box and status
 * filter, and the submit handler that stamps a new claim and puts it at the
 * top. The page's state is replaced wholesale on every change, so it is a
 * value here; `Date.now()` and `new Date().toISOString()` are parameters.
 */
module ClaimsPage {
  import opened Common
  import opened Text
  import opened ClaimRecord

  /** The page's state. */
  datatype Page = Page(
    claims: seq<Claim>,
    showSubmitModal: bool,
    searchTerm: string,
    statusFilter: string)

  /** `statusFilter === 'all' || claim.status === statusFilter`. */
  predicate MatchesStatus(c: Claim, statusFilter: string)
    ensures statusFilter == "all" ==> MatchesStatus(c, statusFilter)
    ensures statusFilter != "all" ==> (MatchesStatus(c, statusFilter) <==> c.status == statusFilter)
  {
    statusFilter == "all" || c.status == statusFilter
  }

  /** The test `filteredClaims` applies to each claim. */
  predicate Shown(c: Claim, searchTerm: string, statusFilter: string)
  {
    MatchesSearch(c, searchTerm) && MatchesStatus(c, statusFilter)
  }

  /**
   * `filteredClaims`: the claims that match the search and the status
   * filter, in the table's order.
   */
  function FilteredClaims(p: Page): (r: seq<Claim>)
    ensures SubList(r, p.claims)
    ensures forall c :: c in r <==> c in p.claims && MatchesSearch(c, p.searchTerm) && MatchesStatus(c, p.statusFilter)
    ensures forall c :: multiset(r)[c] == (if MatchesSearch(c, p.searchTerm) && MatchesStatus(c, p.statusFilter) then multiset(p.claims)[c] else 0)
  {
    Filter(p.claims, c => Shown(c, p.searchTerm, p.statusFilter))
  }

  /**
   * `handleSubmitClaim`: the submitted fields stamped with the id
   * `CLM-<milliseconds>` and the timestamp, put before the other claims;
   * the modal closes and the search and filter stay.
   */
  function HandleSubmitClaim(p: Page, newClaim: ClaimData, millis: nat, timestamp: string): (r: Page)
    ensures |r.claims| == |p.claims| + 1 && r.claims[1..] == p.claims
    ensures r.claims[0].claimId == "CLM-" + NatToString(millis) && r.claims[0].timestamp == timestamp
    ensures r.claims[0].agentsCompleted == [] && r.claims[0].processingTime == 0.0
    ensures Unstamped(r.claims[0]) == newClaim
    ensures !r.showSubmitModal
    ensures r.searchTerm == p.searchTerm && r.statusFilter == p.statusFilter
  {
    var claim := Stamped(newClaim, "CLM-" + NatToString(millis), timestamp);
    p.(claims := [claim] + p.claims, showSubmitModal := false)
  }

  // ------------------------------------------------------------ properties

  /** With an empty search and the filter at 'all', the table shows every claim. */
  lemma UnfilteredShowsAll(p: Page)
    requires p.searchTerm == "" && p.statusFilter == "all"
    ensures FilteredClaims(p) == p.claims
  {
    FilterAll(p.claims, c => Shown(c, p.searchTerm, p.statusFilter));
  }

  /** A status filter other than 'all' shows only claims of that status. */
  lemma StatusFilterExact(p: Page, c: Claim)
    requires p.statusFilter != "all" && c in FilteredClaims(p)
    ensures c.status == p.statusFilter
  {
  }

  /**
   * A submitted claim that matches the current search and filter shows at
   * the top of the table, above what was shown before.
   */
  lemma {:induction false} SubmittedClaimOnTop(p: Page, newClaim: ClaimData, millis: nat, timestamp: string)
    requires Shown(Stamped(newClaim, "CLM-" + NatToString(millis), timestamp), p.searchTerm, p.statusFilter)
    ensures var r := HandleSubmitClaim(p, newClaim, millis, timestamp);
      FilteredClaims(r) == [r.claims[0]] + FilteredClaims(p)
  {
    var r := HandleSubmitClaim(p, newClaim, millis, timestamp);
    assert r.claims == [r.claims[0]] + p.claims;
    assert r.claims[1..] == p.claims;
  }
}
