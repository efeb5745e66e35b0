/** What the two refund actions answer, in terms of the stored rows and the answers they get. */
module RefundAnswers {
  import opened Wrappers
  import opened LeaseOwners
  import opened RefundRows
  import opened RefundTables
  import P = RefundProtocol
  import Expiry = ExpiryMutations
  import Remedy = RemedyMutations
  import Conditions = RefundConditions
  import Once = RefundExactlyOnce

  /** The attempt the Call is stopped for, with everything a remedy needs to know of it. */
  predicate NamesItsPayment(r: Rows, id: Remedy.RemedyIdentity) {
    && r.call.Some? && r.call.value.result.NeedsReconciliation? && r.call.value.result.key in r.attempts
    && var a := r.attempts[r.call.value.result.key];
    && a.forCall && a.forInput && a.admittedToken && a.payer.Some? && a.nonce.Some?
    && Conditions.LostOrFailed(a, id.httpError)
  }

  /** The remedy was completed before: refused for this kind, released, and by this transaction. */
  predicate DoneBefore(r: Rows, id: Remedy.RemedyIdentity) {
    && r.call.Some? && r.call.value.result.RefusedResult? && r.call.value.result.receipt.Some?
    && var code, receipt := r.call.value.result.code, r.call.value.result.receipt.value;
    && receipt.refundState.RefundReleased? && receipt.settlementRef == Some(id.hash)
    && (if id.httpError then code.ProviderRefused? && receipt.lossState.ProviderHttpError? else code.ResultInvalid?)
  }

  /** Each answer of a remedy, with exactly the case it stands for. */
  lemma RemedyAnswersIff(r: Rows, id: Remedy.RemedyIdentity, now: nat, verified: bool, matches: bool,
                         posted: Option<seq<string>>, ok: bool)
    ensures var answer := RemedyOutcome(r, id, now, verified, matches, posted, ok);
            var stopped := r.call.Some? && r.call.value.result.NeedsReconciliation? && IsTransactionHash(id.hash);
            var ready := stopped && NamesItsPayment(r, id) && verified;
            var won := ready && Remedy.Claim(r, id, now).1.Claimed?;
            && (answer == RemedyRefused("call_not_eligible") <==> !DoneBefore(r, id) && (!stopped || (ready && !won)))
            && (answer == RemedyRefused("payment_identity_unavailable") <==> stopped && !NamesItsPayment(r, id))
            && (answer == RemedyRefused("payment_not_verified") <==> stopped && NamesItsPayment(r, id) && !verified)
            && (answer == RemedyRefused("booking_unavailable") <==> won && !matches)
            && (answer == RemedyRefused("credit_restoration_pending") <==> won && matches && posted.None?)
            && (answer == RemedyCompleted ==> DoneBefore(r, id) || (won && matches && posted.Some?))
            && (DoneBefore(r, id) ==> answer == RemedyCompleted)
            && (won && matches && posted.Some? ==>
                  answer == RemedyCompleted || answer == RemedyRefused("receipt_update_pending"))
  {
  }

  /** A won and posted remedy completes exactly when the obligation exists, the refs are as many as the entries and credit restores. */
  lemma PostedRemedyCompletesIff(r: Rows, id: Remedy.RemedyIdentity, now: nat, refs: seq<string>, ok: bool)
    requires P.ReadsAsPaid(r, id) && Remedy.Claim(r, id, now).1.Claimed?
    ensures r.call.Some?
    ensures RemedyOutcome(r, id, now, true, true, Some(refs), ok) == RemedyCompleted
            <==> r.obligation.Some? && (r.call.value.promoGrants.Some? ==> ok)
                 && |refs| == 2 + (if r.call.value.promoGrants.Some? then r.call.value.promoGrants.value else 0)
  {
    Once.PaidClaimThenFinish(r, id, now, P.LossDigest(id, r.call.value.result.key, r.attempts[r.call.value.result.key]),
                             refs, ok, now);
  }

  predicate Refunded(r: Rows) {
    && r.call.Some? && r.call.value.result.RefusedResult? && r.call.value.result.receipt.Some?
    && r.call.value.result.receipt.value.refundState.RefundReleased?
  }

  /** A recover run finds nothing to prove: no stop, or an attempt that is incomplete, another Call's, or may have been paid. */
  predicate NothingToProve(r: Rows) {
    || r.call.None? || !r.call.value.result.NeedsReconciliation? || r.call.value.result.key !in r.attempts
    || var a := r.attempts[r.call.value.result.key];
       || a.identityDigest.None? || a.payer.None? || a.nonce.None? || a.expiresAt.None?
       || !a.forCall || !a.forInput || !Conditions.MayBeUnpaid(a)
  }

  /** A recover run answers "not eligible" exactly when it could go on but finds nothing to prove. */
  lemma RecoverNotEligibleIff(r: Rows, attempt: nat, now: nat, blocks: seq<Block>, matches: bool,
                              posted: Option<seq<string>>, ok: bool)
    ensures RecoverOutcome(r, attempt, now, blocks, matches, posted, ok) == NotEligible
            <==> && r.call.Some? && r.call.value.state.ReconciliationRequired? && attempt < 4
                 && !(r.call.value.recon.Some? && r.call.value.recon.value.disposition.ManualReview?
                      && r.call.value.recon.value.reason.UnknownSettlement?)
                 && !Refunded(r) && NothingToProve(r)
  {
  }
}
