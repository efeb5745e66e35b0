/**
 What the expired-unused mutations do to the rows: `claim`, `finish` and
 `schedule`. The imperative versions in RefundTables are proved equal to these.
 */
module ExpiryMutations {
  import opened Wrappers
  import opened LeaseOwners
  import opened RefundRows

  datatype ExpiryProofArgs = ExpiryProofArgs(
    key: AttemptKey, identityDigest: string, nonce: string, digest: Digest)

  datatype FinishKind = FinishCompleted | FinishRefused | Aborted

  const MAX_ATTEMPT: nat := 5

  /** An absent response, or an unknown HTTP 402 without a chain locator, may reach unused proof. */
  predicate ResponsePermitsUnusedProof(a: Attempt) {
    a.paymentResponse.None?
    || (a.response.status == Some(402) && a.settlement == Some(SettlementUnknown) && a.chainHashes == {})
  }

  /** The attempt is the Call's, is still unpaid, and its authorization has run out. */
  predicate ProvablyUnused(c: Call, a: Attempt, p: ExpiryProofArgs, now: nat) {
    && a.forCall && a.forInput
    && a.identityDigest == Some(p.identityDigest)
    && a.nonce == Some(p.nonce)
    && a.expiresAt.Some? && a.expiresAt.value <= now
    && a.settlement != Some(Settled)
    && ResponsePermitsUnusedProof(a)
    && ReservedBy(c, a)
  }

  predicate ClaimAdmits(r: Rows, p: ExpiryProofArgs, now: nat) {
    && r.call.Some?
    && var c := r.call.value;
    && !HeldForUnknownSettlement(c)
    && OpenForRefund(c)
    && c.result.key == p.key
    && IsSha256(p.digest)
    && p.key in r.attempts
    && ProvablyUnused(c, r.attempts[p.key], p, now)
    && !LeasedToOther(c, ExpiredUnused(p.nonce), now)
  }

  /** The permanent lease an expired-unused claim writes. */
  function ExpiryLease(c: Call, nonce: string): Reconciliation {
    Reconciliation(Automatic, RefundPending, AttemptCount(c), MAX_SAFE_INTEGER,
                   Some(ExpiredUnused(nonce)), Some(MAX_SAFE_INTEGER))
  }

  /** Rows and pinned digest after `claim`; no digest means the claim was refused without a write. */
  function Claim(r: Rows, p: ExpiryProofArgs, now: nat): (Rows, Option<Digest>) {
    if !ClaimAdmits(r, p, now) then (r, None) else
      var c, a := r.call.value, r.attempts[p.key];
      if LeasedTo(c, ExpiredUnused(p.nonce)) && a.evidence.Some? then (r, a.evidence) else
        (r.(attempts := r.attempts[p.key := a.(evidence := Some(p.digest))],
            call := Some(c.(recon := Some(ExpiryLease(c, p.nonce))))),
         Some(p.digest))
  }

  /** A Call already closed with this digest: the next `finish` can only be a replay. */
  predicate ReleasedWith(c: Call, digest: Digest) {
    && c.financial == Released
    && c.result.RefusedResult?
    && c.result.receipt.Some?
    && c.result.receipt.value.evidenceHash == digest
  }

  predicate FinishAdmits(r: Rows, digest: Digest, refs: seq<string>) {
    && r.call.Some? && r.obligation.Some?
    && var c := r.call.value;
    && OpenForRefund(c)
    && |refs| == RefundEntries(c)
    && c.result.key in r.attempts
    && var a := r.attempts[c.result.key];
    && a.forCall
    && a.evidence == Some(digest)
    && a.nonce.Some?
    && LeasedTo(c, ExpiredUnused(a.nonce.value))
    && a.settlement != Some(Settled)
  }

  /** Whether closing the spend reservation as unused throws and so aborts the mutation. */
  predicate SpendConflicts(r: Rows, key: AttemptKey, digest: Digest)
    requires key in r.attempts
  {
    && r.spend.Some? && r.spend.value.key == key
    && (!ReservedFor(r.spend.value, r.attempts[key]) || !IsSha256(digest) || r.spend.value.state == SpendSettled)
  }

  function CloseSpendUnused(r: Rows, key: AttemptKey, digest: Digest): Rows {
    if r.spend.Some? && r.spend.value.key == key && r.spend.value.state == Liability then
      r.(spend := Some(r.spend.value.(state := SpendUnused, evidence := Some(digest))),
         effects := r.effects + [SpendClosed(SpendUnused)])
    else r
  }

  function RefundReceipt(before: Receipt, digest: Digest, refs: seq<string>): Receipt
    requires refs != []
  {
    before.(state := ReceiptRefunded, refundState := RefundReleased, lossState := NoLoss,
         evidenceHash := digest, accountingRefs := Some(refs), transactionRef := Some(refs[0]))
  }

  /** Restoring promotional credit is one fact of the closing transaction. */
  function RestoreCredit(r: Rows): Rows
    requires r.call.Some?
  {
    if r.call.value.promoGrants.Some? then r.(effects := r.effects + [CreditRestored]) else r
  }

  function CloseExpired(r: Rows, digest: Digest, refs: seq<string>, now: nat): Rows
    requires FinishAdmits(r, digest, refs)
  {
    var c := r.call.value;
    var key := c.result.key;
    var paid := CloseSpendUnused(RestoreCredit(r), key, digest);
    paid.(
      attempts := r.attempts[key := r.attempts[key].(state := Observed, settlement := Some(NotSettled),
                                                    unsignedMaterial := None)],
      obligation := Some(r.obligation.value.(state := Reversed)),
      effects := paid.effects + [ObligationClosed(Reversed)],
      call := Some(c.(state := Refused, dispatchState := DispatchFailed, financial := Released,
                      result := RefusedResult(SourceUnavailable, Some(RefundReceipt(c.result.receipt.value, digest, refs))),
                      releaseRefs := Some(refs), recon := None, evidenceHash := Some(digest), updatedAt := now)))
  }

  /**
   Rows and answer after `finish`. `restorable` is the answer of the promotional
   credit restore; a throw anywhere rolls the whole mutation back.
   */
  function Finish(r: Rows, digest: Digest, refs: seq<string>, restorable: bool, now: nat): (Rows, FinishKind) {
    if r.call.Some? && ReleasedWith(r.call.value, digest) then
      if r.call.value.releaseRefs != Some(refs) then (r, FinishRefused)
      else (r.(call := Some(r.call.value.(result := r.call.value.result.(code := SourceUnavailable)))), FinishCompleted)
    else if !FinishAdmits(r, digest, refs) then (r, FinishRefused)
    else if r.call.value.promoGrants.Some? && !restorable then (r, Aborted)
    else if SpendConflicts(r, r.call.value.result.key, digest) then (r, Aborted)
    else (CloseExpired(r, digest, refs, now), FinishCompleted)
  }

  /** What `schedule` writes when the retries are exhausted; the lease survives. */
  function ManualReviewAfter(recon: Option<Reconciliation>, attempt: nat, now: nat): Reconciliation {
    var kept := if recon.Some? then recon.value
                else Reconciliation(ManualReview, RecoveryFailed, 0, 0, None, None);
    kept.(attemptCount := attempt, nextAttemptAt := now, disposition := ManualReview, reason := RecoveryFailed)
  }

  /** Rows, and the time of the armed successor run if one was armed. */
  function Schedule(r: Rows, attempt: nat, runAt: nat, now: nat): (Rows, Option<nat>) {
    if r.call.None? || !r.call.value.state.ReconciliationRequired? || HeldForUnknownSettlement(r.call.value) then (r, None)
    else if attempt >= MAX_ATTEMPT then
      (r.(call := Some(r.call.value.(recon := Some(ManualReviewAfter(r.call.value.recon, attempt, now))))), None)
    else (r, Some(if now < runAt then runAt else now))
  }

  /** The delay before the successor of a run: `60_000 * 2 ** min(attempt, 4)`. */
  function SuccessorGap(attempt: nat): nat {
    60000 * Pow2(if attempt < 4 then attempt else 4)
  }
}
