/**
 * Frontend/src/pages/Index.tsx: the operations dashboard's home page keeps
 * the list of claims and the claim shown in the pipeline; a submitted claim
 * gets the next sequential id, goes to the front of the list and becomes the
 * active claim. The processing-time ticker and `new Date()` are not modelled:
 * the timestamp is a parameter.
 */
module IndexPage {
  import opened Common
  import opened Text
  import opened ClaimRecord

  /**
   * `String(n).padStart(3, '0')`: at least three characters, all digits,
   * never truncated, and reading back as `n`.
   */
  function Padded(n: nat): (p: string)
    ensures forall k :: 0 <= k < |p| ==> '0' <= p[k] <= '9'
    ensures DecimalValue(p) == n
    ensures |p| >= 3 && (n < 1000 ==> |p| == 3)
  {
    var digits := NatToString(n);
    NatToStringValue(n);
    assert |digits| < 3 ==> PadStart(digits, 3, '0') == seq(3 - |digits|, _ => '0') + digits;
    LeadingZerosValue(if |digits| < 3 then 3 - |digits| else 0, digits);
    assert n < 1000 ==> |digits| <= 3 by {
      if n < 1000 {
        NatToStringShort(n);
      }
    }
    PadStart(digits, 3, '0')
  }

  /** `CLM-2024-${String(claims.length + 1).padStart(3, '0')}` for a list of `count` claims. */
  function NewClaimId(count: nat): (id: string)
    ensures |id| >= 12 && id[..9] == "CLM-2024-" && id[9..] == Padded(count + 1)
  {
    "CLM-2024-" + Padded(count + 1)
  }

  /** Lists of different lengths give different ids: padding never truncates, so the number reads back. */
  lemma NewClaimIdsDiffer(m: nat, n: nat)
    requires m != n
    ensures NewClaimId(m) != NewClaimId(n)
  {
    assert NewClaimId(m)[9..] == Padded(m + 1) && NewClaimId(n)[9..] == Padded(n + 1);
  }

  /** The page's state. */
  class IndexPage {
    var claims: seq<Claim>
    var activeClaim: Option<Claim>
    var isSubmitModalOpen: bool

    /** The initial list; the first claim, if any, is active (`claims[0] || null`). */
    constructor (initial: seq<Claim>)
      ensures claims == initial && !isSubmitModalOpen
      ensures activeClaim == if initial == [] then None else Some(initial[0])
    {
      claims := initial;
      activeClaim := if initial == [] then None else Some(initial[0]);
      isSubmitModalOpen := false;
    }

    /**
     * `handleSubmitClaim`: the stamped claim is prepended and made active,
     * and the modal closes; the other claims keep their order.
     */
    method HandleSubmitClaim(newClaim: ClaimData, timestamp: string)
      modifies this`claims, this`activeClaim, this`isSubmitModalOpen
      ensures var c := Stamped(newClaim, NewClaimId(|old(claims)|), timestamp);
        claims == [c] + old(claims) && activeClaim == Some(c)
      ensures |claims| == |old(claims)| + 1 && claims[1..] == old(claims)
      ensures !isSubmitModalOpen
    {
      var claimId := NewClaimId(|claims|);
      var claim := Stamped(newClaim, claimId, timestamp);
      ghost var before := claims;
      claims := [claim] + claims;
      assert claims[1..] == before;
      activeClaim := Some(claim);
      isSubmitModalOpen := false;
    }
  }
}
