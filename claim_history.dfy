/**
 * src/components/dashboard/ClaimHistory.tsx: the searchable, sortable list
 * of past claims. The list is filtered by the search term and then sorted,
 * on a fresh copy, by date, amount or risk score, largest first.
 * `new Date(timestamp).getTime()` is the parameter `time`.
 */
module ClaimHistory {
  import opened Common
  import opened Text
  import opened ClaimRecord

  /** The `sortBy` state: 'date' (the default), 'amount' or 'risk'. */
  datatype SortBy = ByDate | ByAmount | ByRisk

  /** The number the comparator subtracts for a claim. */
  function SortKey(sortBy: SortBy, time: string -> real, c: Claim): real
  {
    match sortBy
    case ByAmount => c.amount
    case ByRisk => c.riskScore
    case ByDate => time(c.timestamp)
  }

  /** `filteredClaims`: the claims the search matches, in the list's order. */
  function FilteredClaims(claims: seq<Claim>, searchTerm: string): (r: seq<Claim>)
    ensures SubList(r, claims)
    ensures forall c :: c in r <==> c in claims && MatchesSearch(c, searchTerm)
    ensures forall c :: multiset(r)[c] == if MatchesSearch(c, searchTerm) then multiset(claims)[c] else 0
  {
    Filter(claims, c => MatchesSearch(c, searchTerm))
  }

  /** Largest key first: what the comparator `b - a` asks of the sorted list. */
  predicate NonIncreasing<T>(s: seq<T>, key: T -> real)
  {
    forall i, j :: 0 <= i < j < |s| ==> key(s[i]) >= key(s[j])
  }

  /**
   * `c` placed into a list sorted largest first, before the first element
   * whose key is not larger than its own.
   */
  function Insert<T>(c: T, sorted: seq<T>, key: T -> real): (r: seq<T>)
    ensures multiset(r) == multiset(sorted) + multiset{c}
  {
    if sorted == [] || key(sorted[0]) <= key(c) then [c] + sorted
    else
      assert sorted == [sorted[0]] + sorted[1..];
      [sorted[0]] + Insert(c, sorted[1..], key)
  }

  /** Inserting into a list sorted largest first keeps it sorted. */
  lemma {:induction false} InsertKeepsOrder<T>(c: T, sorted: seq<T>, key: T -> real)
    requires NonIncreasing(sorted, key)
    ensures NonIncreasing(Insert(c, sorted, key), key)
  {
    if sorted != [] && key(sorted[0]) > key(c) {
      var rest := Insert(c, sorted[1..], key);
      InsertKeepsOrder(c, sorted[1..], key);
      forall k | 0 <= k < |rest|
        ensures key(rest[k]) <= key(sorted[0])
      {
        assert rest[k] in multiset(rest);
        if rest[k] != c {
          assert rest[k] in multiset(sorted[1..]);
          assert rest[k] in sorted[1..];
        }
      }
      assert Insert(c, sorted, key) == [sorted[0]] + rest;
    }
  }

  /** A sort that keeps the list's elements and puts them largest key first. */
  function SortDescending<T>(s: seq<T>, key: T -> real): (r: seq<T>)
    ensures NonIncreasing(r, key)
    ensures multiset(r) == multiset(s)
  {
    if s == [] then []
    else
      assert s == [s[0]] + s[1..];
      InsertKeepsOrder(s[0], SortDescending(s[1..], key), key);
      Insert(s[0], SortDescending(s[1..], key), key)
  }

  /**
   * `sortedClaims`: the filtered claims, all of them and nothing else,
   * ordered by the chosen key, largest first.
   */
  function SortedClaims(claims: seq<Claim>, searchTerm: string, sortBy: SortBy, time: string -> real): (r: seq<Claim>)
    ensures multiset(r) == multiset(FilteredClaims(claims, searchTerm))
    ensures NonIncreasing(r, c => SortKey(sortBy, time, c))
  {
    SortDescending(FilteredClaims(claims, searchTerm), c => SortKey(sortBy, time, c))
  }

  // ------------------------------------------------------------ properties

  /** An empty search keeps every claim, in order. */
  lemma EmptySearchKeepsAll(claims: seq<Claim>)
    ensures FilteredClaims(claims, "") == claims
  {
    FilterAll(claims, c => MatchesSearch(c, ""));
  }

  /** Typing more (a term that contains the old one) narrows the list to a sub-list of what was shown. */
  lemma LongerSearchNarrowsList(claims: seq<Claim>, short: string, long: string)
    requires Contains(long, short)
    ensures SubList(FilteredClaims(claims, long), FilteredClaims(claims, short))
  {
    forall c | c in claims && MatchesSearch(c, long)
      ensures MatchesSearch(c, short)
    {
      LongerSearchNarrows(c, short, long);
    }
    FilterNarrows(claims, c => MatchesSearch(c, long), c => MatchesSearch(c, short));
  }

  /** Sorting by 'amount' puts larger amounts first. */
  lemma ByAmountDescending(claims: seq<Claim>, searchTerm: string, time: string -> real, i: nat, j: nat)
    requires var r := SortedClaims(claims, searchTerm, ByAmount, time); i < j < |r|
    ensures var r := SortedClaims(claims, searchTerm, ByAmount, time); r[i].amount >= r[j].amount
  {
    var r := SortedClaims(claims, searchTerm, ByAmount, time);
    assert SortKey(ByAmount, time, r[i]) >= SortKey(ByAmount, time, r[j]);
  }

  /** Sorting by 'risk' puts larger risk scores first. */
  lemma ByRiskDescending(claims: seq<Claim>, searchTerm: string, time: string -> real, i: nat, j: nat)
    requires var r := SortedClaims(claims, searchTerm, ByRisk, time); i < j < |r|
    ensures var r := SortedClaims(claims, searchTerm, ByRisk, time); r[i].riskScore >= r[j].riskScore
  {
    var r := SortedClaims(claims, searchTerm, ByRisk, time);
    assert SortKey(ByRisk, time, r[i]) >= SortKey(ByRisk, time, r[j]);
  }

  /** The default 'date' order puts later timestamps first. */
  lemma ByDateNewestFirst(claims: seq<Claim>, searchTerm: string, time: string -> real, i: nat, j: nat)
    requires var r := SortedClaims(claims, searchTerm, ByDate, time); i < j < |r|
    ensures var r := SortedClaims(claims, searchTerm, ByDate, time); time(r[i].timestamp) >= time(r[j].timestamp)
  {
    var r := SortedClaims(claims, searchTerm, ByDate, time);
    assert SortKey(ByDate, time, r[i]) >= SortKey(ByDate, time, r[j]);
  }

  /** Sorting neither adds nor drops claims: the list shows as many claims as the search matches. */
  lemma SortKeepsCount(claims: seq<Claim>, searchTerm: string, sortBy: SortBy, time: string -> real)
    ensures |SortedClaims(claims, searchTerm, sortBy, time)| == |FilteredClaims(claims, searchTerm)|
  {
    var r := SortedClaims(claims, searchTerm, sortBy, time);
    assert |multiset(r)| == |multiset(FilteredClaims(claims, searchTerm))|;
  }
}
