/** What the paid-result remedy mutations do to the rows: `claim` and `finish`. */
module RemedyMutations {
  import opened Wrappers
  import opened LeaseOwners
  import opened RefundRows
  import opened ExpiryMutations

  datatype RemedyIdentity = RemedyIdentity(hash: string, httpError: bool)

  datatype ClaimAnswer = ClaimNull | AlreadyCompleted | Claimed(attempt: Attempt)

  function OwnerOf(i: RemedyIdentity): LeaseOwner { RemedyOwner(i.hash, i.httpError) }

  predicate RetainedHttpError(f: ResponseFacts) {
    && f.status.Some? && 300 <= f.status.value <= 599
    && f.transportObservation.Some?
    && f.transportRequest.Some?
    && f.paymentObservation.Some?
  }

  /** Lost results need no retained response; HTTP errors need an exactly attributed one. */
  predicate EligibleForRemedy(c: Call, a: Attempt, httpError: bool) {
    if !httpError then
      a.response.transportObservation.None? && a.quarantinedOutput.None? && a.response.status.None?
    else
      c.toolSnapshotMatches && c.financial == OutcomeUnknown
      && RetainedHttpError(a.response) && a.settlement != Some(NotSettled)
  }

  predicate SubmittedAttempt(c: Call, a: Attempt, httpError: bool) {
    && a.forCall && a.forInput && ReservedBy(c, a)
    && a.submissionStartedAt.Some? && a.payer.Some? && a.nonce.Some?
    && EligibleForRemedy(c, a, httpError)
  }

  /** The refusal recorded by this remedy kind. */
  predicate RefusedByRemedy(c: Call, httpError: bool) {
    && c.result.RefusedResult?
    && (if httpError then c.result.code == ProviderRefused && c.result.receipt.Some?
                          && c.result.receipt.value.lossState == ProviderHttpError
        else c.result.code == ResultInvalid)
  }

  predicate ClosedFor(c: Call, i: RemedyIdentity) {
    && c.state.Refused? && RefusedByRemedy(c, i.httpError)
    && c.result.receipt.Some?
    && c.result.receipt.value.refundState == RefundReleased
    && c.result.receipt.value.settlementRef == Some(Lower(i.hash))
  }

  /** An HTTP-error remedy may take over the short lease of response recovery. */
  predicate RemedyBlocked(c: Call, i: RemedyIdentity, now: nat) {
    && LeasedToOther(c, OwnerOf(i), now)
    && !(i.httpError && c.recon.value.leaseOwner.value.PaidResponse?)
  }

  predicate ClaimAdmits(r: Rows, i: RemedyIdentity, now: nat) {
    && r.call.Some?
    && var c := r.call.value;
    && OpenForRefund(c)
    && c.result.key in r.attempts
    && SubmittedAttempt(c, r.attempts[c.result.key], i.httpError)
    && !RemedyBlocked(c, i, now)
  }

  function RemedyLease(c: Call, i: RemedyIdentity, now: nat): Reconciliation {
    Reconciliation(ManualReview, RefundPending, AttemptCount(c), now, Some(OwnerOf(i)), Some(MAX_SAFE_INTEGER))
  }

  function Claim(r: Rows, i: RemedyIdentity, now: nat): (Rows, ClaimAnswer) {
    if !IsTransactionHash(i.hash) || r.call.None? then (r, ClaimNull)
    else if ClosedFor(r.call.value, i) then (r, AlreadyCompleted)
    else if !ClaimAdmits(r, i, now) then (r, ClaimNull)
    else (r.(call := Some(r.call.value.(recon := Some(RemedyLease(r.call.value, i, now))))),
          Claimed(r.attempts[r.call.value.result.key]))
  }

  predicate ReplayedWith(c: Call, i: RemedyIdentity, digest: Digest, refs: seq<string>) {
    && c.state.Refused? && RefusedByRemedy(c, i.httpError)
    && c.result.receipt.Some?
    && c.result.receipt.value.evidenceHash == digest
    && c.result.receipt.value.settlementRef == Some(Lower(i.hash))
    && c.result.receipt.value.accountingRefs == Some(refs)
  }

  predicate FinishAdmits(r: Rows, i: RemedyIdentity, refs: seq<string>) {
    && r.call.Some? && r.obligation.Some?
    && var c := r.call.value;
    && OpenForRefund(c)
    && LeasedTo(c, OwnerOf(i))
    && |refs| == RefundEntries(c)
    && c.result.key in r.attempts
    && SubmittedAttempt(c, r.attempts[c.result.key], i.httpError)
  }

  function RemedyReceipt(before: Receipt, i: RemedyIdentity, digest: Digest, refs: seq<string>): Receipt
    requires refs != []
  {
    before.(state := ReceiptRefunded, refundState := RefundReleased,
         lossState := if i.httpError then ProviderHttpError else LossUnknown,
         evidenceHash := digest, settlementRef := Some(Lower(i.hash)),
         accountingRefs := Some(refs), transactionRef := Some(refs[0]))
  }

  function ClosePaid(r: Rows, i: RemedyIdentity, digest: Digest, refs: seq<string>, now: nat): Rows
    requires FinishAdmits(r, i, refs)
  {
    var c := r.call.value;
    var key := c.result.key;
    var paid := RestoreCredit(r);
    paid.(
      attempts := r.attempts[key := r.attempts[key].(state := Observed, settlement := Some(Settled),
                                                    evidence := Some(digest))],
      obligation := Some(Obligation(ObligationSettled, Some(refs[1]))),
      effects := paid.effects + [ObligationClosed(ObligationSettled)],
      call := Some(c.(state := Refused, dispatchState := DispatchFailed, financial := Released,
                      result := RefusedResult(if i.httpError then ProviderRefused else ResultInvalid,
                                              Some(RemedyReceipt(c.result.receipt.value, i, digest, refs))),
                      releaseRefs := Some([refs[0]] + refs[2..]), settlementRefs := Some([refs[1]]),
                      recon := None, evidenceHash := Some(digest), updatedAt := now)))
  }

  function Finish(r: Rows, i: RemedyIdentity, digest: Digest, refs: seq<string>, restorable: bool, now: nat)
    : (Rows, FinishKind)
  {
    if !IsSha256(digest) then (r, FinishRefused)
    else if r.call.Some? && ReplayedWith(r.call.value, i, digest, refs) then (r, FinishCompleted)
    else if !FinishAdmits(r, i, refs) then (r, FinishRefused)
    else if r.call.value.promoGrants.Some? && !restorable then (r, Aborted)
    else (ClosePaid(r, i, digest, refs, now), FinishCompleted)
  }
}
