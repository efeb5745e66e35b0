/**
 Owners written into `reconciliation.leaseOwner`. The stored text is a prefix
 followed by an identity; the rest of the model compares owners as values. The
 lemmas here justify that: the text decides the owner, and every prefix test in
 the source is a test on the owner's constructor.
 */
module LeaseOwners {

  datatype LeaseOwner =
    | ExpiredUnused(nonce: string)
    | PaidResultLoss(hash: string, httpError: bool)
    | PaidResponse(step: nat)
    | Sweep(id: string)
    | PreClaimRefund(id: string)

  /** Owners whose lease fences a refund; every other lease is a short one. */
  predicate IsRefundOwner(o: LeaseOwner) {
    o.ExpiredUnused? || o.PaidResultLoss?
  }

  function LowerChar(c: char): char {
    if 'A' <= c <= 'Z' then c - 'A' + 'a' else c
  }

  /** `transactionHash.toLowerCase()` on the ASCII text of a hash. */
  function Lower(s: string): (r: string)
    ensures |r| == |s|
    ensures forall i :: 0 <= i < |s| ==> r[i] == LowerChar(s[i])
  {
    seq(|s|, i requires 0 <= i < |s| => LowerChar(s[i]))
  }

  predicate IsHexDigit(c: char) {
    '0' <= c <= '9' || 'a' <= c <= 'f' || 'A' <= c <= 'F'
  }

  /** The test `/^0x[0-9a-fA-F]{64}$/` applied to a transaction hash. */
  predicate IsTransactionHash(s: string) {
    |s| == 66 && s[0] == '0' && s[1] == 'x' && forall i :: 2 <= i < 66 ==> IsHexDigit(s[i])
  }

  const EXPIRED_UNUSED := "expired-unused:"
  const PAID_RESULT_LOSS := "paid-result-loss:"
  const HTTP_ERROR := "http-error:"
  const PAID_RESPONSE := "paid-response:"
  const RECONCILIATION_SWEEP := "reconciliation-sweep:"
  const PRE_CLAIM_REFUND := "pre-claim-refund:"

  /** The owner of a paid-result remedy for one transaction and failure kind. */
  function RemedyOwner(transactionHash: string, httpError: bool): LeaseOwner {
    PaidResultLoss(Lower(transactionHash), httpError)
  }

  /** A watchdog step is 0 to 4, so its decimal text is one digit. */
  predicate Written(o: LeaseOwner) {
    match o
    case PaidResultLoss(hash, _) => IsTransactionHash(hash)
    case PaidResponse(step) => step <= 4
    case _ => true
  }

  /** The text stored for an owner. */
  function OwnerText(o: LeaseOwner): string
    requires Written(o)
  {
    match o
    case ExpiredUnused(nonce) => EXPIRED_UNUSED + nonce
    case PaidResultLoss(hash, httpError) => PAID_RESULT_LOSS + (if httpError then HTTP_ERROR else "") + hash
    case PaidResponse(step) => PAID_RESPONSE + ["01234"[step]]
    case Sweep(id) => RECONCILIATION_SWEEP + id
    case PreClaimRefund(id) => PRE_CLAIM_REFUND + id
  }

  lemma LowerKeepsHash(s: string)
    requires IsTransactionHash(s)
    ensures IsTransactionHash(Lower(s)) && Lower(Lower(s)) == Lower(s)
  {
  }

  /** Every `startsWith` test on the stored text tests the kind of owner. */
  lemma OwnerPrefixes(o: LeaseOwner)
    requires Written(o)
    ensures EXPIRED_UNUSED <= OwnerText(o) <==> o.ExpiredUnused?
    ensures PAID_RESULT_LOSS <= OwnerText(o) <==> o.PaidResultLoss?
    ensures PAID_RESULT_LOSS + HTTP_ERROR <= OwnerText(o) <==> o.PaidResultLoss? && o.httpError
    ensures PAID_RESPONSE <= OwnerText(o) <==> o.PaidResponse?
    ensures RECONCILIATION_SWEEP <= OwnerText(o) <==> o.Sweep?
  {
    var t := OwnerText(o);
    // The kinds differ in their first, second or ninth character.
    match o
    case ExpiredUnused(n) => assert t[0] == 'e';
    case PaidResultLoss(h, e) =>
      assert t[0] == 'p' && t[8] == 'u';
      if e {
        assert t == (PAID_RESULT_LOSS + HTTP_ERROR) + h;
      } else {
        assert t[17] == h[0] == '0';
        assert (PAID_RESULT_LOSS + HTTP_ERROR)[17] == 'h';
      }
    case PaidResponse(_) => assert t[0] == 'p' && t[8] == 'p';
    case Sweep(_) => assert t[0] == 'r';
    case PreClaimRefund(_) => assert t[0] == 'p' && t[1] == 'r';
  }

  /** Two owners with the same stored text are the same owner. */
  lemma OwnerTextInjective(a: LeaseOwner, b: LeaseOwner)
    requires Written(a) && Written(b)
    ensures OwnerText(a) == OwnerText(b) <==> a == b
  {
    if OwnerText(a) == OwnerText(b) {
      OwnerPrefixes(a);
      OwnerPrefixes(b);
      var t := OwnerText(a);
      match a
      case ExpiredUnused(n) => assert n == t[15..] && b.nonce == t[15..];
      case PaidResultLoss(h, e) =>
        if e {
          assert t == (PAID_RESULT_LOSS + HTTP_ERROR) + h && t == (PAID_RESULT_LOSS + HTTP_ERROR) + b.hash;
          assert h == t[28..] && b.hash == t[28..];
        } else {
          assert t == PAID_RESULT_LOSS + h && t == PAID_RESULT_LOSS + b.hash;
          assert h == t[17..] && b.hash == t[17..];
        }
      case PaidResponse(s) => assert "01234"[s] == t[14] && "01234"[b.step] == t[14];
      case Sweep(id) => assert id == t[21..] && b.id == t[21..];
      case PreClaimRefund(id) =>
        assert b.PreClaimRefund? by { if b.PaidResponse? || b.Sweep? { } }
        assert id == t[17..] && b.id == t[17..];
    }
  }

  /** One transaction and one failure kind have one remedy owner, whatever the case of the hash. */
  lemma RemedyOwnerIdentifies(h1: string, k1: bool, h2: string, k2: bool)
    requires IsTransactionHash(h1) && IsTransactionHash(h2)
    ensures Written(RemedyOwner(h1, k1)) && Written(RemedyOwner(h2, k2))
    ensures OwnerText(RemedyOwner(h1, k1)) == OwnerText(RemedyOwner(h2, k2))
            <==> Lower(h1) == Lower(h2) && k1 == k2
  {
    LowerKeepsHash(h1);
    LowerKeepsHash(h2);
    OwnerTextInjective(RemedyOwner(h1, k1), RemedyOwner(h2, k2));
  }
}
