/**
 The refund mutations column by column: exactly when each claim and finish succeeds and
 every column it writes, in terms of the stored rows alone. No predicate of the
 mutations themselves is used to say so.
 */
module RefundConditions {
  import opened Wrappers
  import opened LeaseOwners
  import opened RefundRows
  import opened RefundProtocol
  import Expiry = ExpiryMutations
  import Remedy = RemedyMutations
  import Safety = RefundSafety
  import Retries = RefundRetries

  const HEX_DIGITS := "0123456789abcdefABCDEF"

  /** A hash is `0x` and sixty-four hexadecimal digits of either case. */
  lemma TransactionHashIff(hash: string)
    ensures IsTransactionHash(hash)
            <==> |hash| == 66 && hash[..2] == "0x" && forall k :: 2 <= k < 66 ==> hash[k] in HEX_DIGITS
  {
    forall c: char
      ensures IsHexDigit(c) <==> c in HEX_DIGITS
    {
      HexDigitIff(c);
    }
  }

  lemma HexDigitIff(c: char)
    ensures IsHexDigit(c) <==> c in HEX_DIGITS
  {
    var d := HEX_DIGITS;
    assert d[0] == '0' && d[1] == '1' && d[2] == '2' && d[3] == '3' && d[4] == '4' && d[5] == '5' && d[6] == '6';
    assert d[7] == '7' && d[8] == '8' && d[9] == '9' && d[10] == 'a' && d[11] == 'b' && d[12] == 'c' && d[13] == 'd';
    assert d[14] == 'e' && d[15] == 'f' && d[16] == 'A' && d[17] == 'B' && d[18] == 'C' && d[19] == 'D';
    assert d[20] == 'E' && d[21] == 'F';
  }

  // ---- what the retained response allows ----

  /** Nothing was answered, or a plain 402 whose settlement is unknown and that names no transaction. */
  predicate MayBeUnpaid(a: Attempt) {
    match a.settlement
    case Some(Settled) => false
    case Some(SettlementUnknown) => a.paymentResponse == None || (a.response.status == Some(402) && |a.chainHashes| == 0)
    case _ => a.paymentResponse == None
  }

  /** A lost result has no retained response; a failed one has a status from 300 to 599 and its three digests. */
  predicate LostOrFailed(a: Attempt, failed: bool) {
    match a.response
    case ResponseFacts(status, transport, request, payment, _) =>
      if failed then
        && status.Some? && 299 < status.value < 600 && transport != None && request != None && payment != None
        && a.settlement != Some(NotSettled)
      else status == None && transport == None && a.quarantinedOutput == None
  }

  // ---- claiming a refund of an unused authorization ----

  /**
   An expired-unused claim is won exactly for a stopped, unsettled Call of an account, on its
   own attempt, whose authorization names this nonce and identity, is reserved, unpaid and has
   run out, with nothing answered or a plain 402 that names no transaction, and no other live
   lease on the Call.
   */
  lemma ExpiryClaimIff(r: Rows, p: Expiry.ExpiryProofArgs, now: nat)
    ensures Expiry.Claim(r, p, now).1.Some?
            <==>
            && r.call.Some? && p.key in r.attempts && !p.digest.Malformed?
            && var c, a := r.call.value, r.attempts[p.key];
            && c.state.ReconciliationRequired? && c.financial.OutcomeUnknown?
            && c.result.NeedsReconciliation? && c.result.key == p.key && c.result.receipt.Some? && c.result.receipt.value.accountAud
            && (c.recon.Some? && c.recon.value.disposition.ManualReview? ==> !c.recon.value.reason.UnknownSettlement?)
            && a.forCall && a.forInput && a.identityDigest == Some(p.identityDigest) && a.nonce == Some(p.nonce)
            && a.expiresAt.Some? && a.expiresAt.value <= now
            && a.reservationRef.Some? && c.reservationRefs.Some?
            && (exists k :: 0 <= k < |c.reservationRefs.value| && c.reservationRefs.value[k] == a.reservationRef.value)
            && MayBeUnpaid(a)
            && (c.recon.Some? && c.recon.value.leaseOwner.Some? && c.recon.value.leaseExpiresAt.Some? ==>
                  c.recon.value.leaseOwner.value == ExpiredUnused(p.nonce) || c.recon.value.leaseExpiresAt.value <= now)
  {
  }

  /** What a won claim writes: the proof once, and the permanent lease. A repeated claim answers the stored proof. */
  lemma ExpiryClaimWrites(r: Rows, p: Expiry.ExpiryProofArgs, now: nat)
    requires Expiry.Claim(r, p, now).1.Some?
    ensures var (after, pin) := Expiry.Claim(r, p, now);
            && r.call.Some? && p.key in r.attempts && after.call.Some? && p.key in after.attempts
            && var c, d, a, b := r.call.value, after.call.value, r.attempts[p.key], after.attempts[p.key];
            && after == r.(call := Some(c.(recon := d.recon)), attempts := r.attempts[p.key := a.(evidence := b.evidence)])
            && b.evidence == pin && d.recon.Some? && d.recon.value.leaseOwner == Some(ExpiredUnused(p.nonce))
            && if c.recon.Some? && c.recon.value.leaseOwner == Some(ExpiredUnused(p.nonce)) && a.evidence.Some?
               then pin == a.evidence && d.recon == c.recon
               else pin == Some(p.digest) && d.recon.value.disposition.Automatic? && d.recon.value.reason.RefundPending?
                    && d.recon.value.nextAttemptAt == 9007199254740991
                    && d.recon.value.leaseExpiresAt == Some(9007199254740991)
                    && d.recon.value.attemptCount == (if c.recon.Some? then c.recon.value.attemptCount else 0)
  {
    var a := r.attempts[p.key];
    assert r.attempts[p.key := a.(evidence := a.evidence)] == r.attempts;
  }

  // ---- finishing it ----

  /** The reservation stops the close: another payment's, malformed evidence, or already settled. */
  lemma SpendConflictIff(r: Rows, key: AttemptKey, digest: Digest)
    requires key in r.attempts
    ensures Expiry.SpendConflicts(r, key, digest)
            <==> r.spend.Some? && r.spend.value.key == key
                 && var s, a := r.spend.value, r.attempts[key];
                    || s.terms.(payTo := "") != a.terms.(payTo := "") || s.terms.payTo != Lower(a.terms.payTo)
                    || s.identityDigest != a.identityDigest
                    || digest.Malformed? || s.state.SpendSettled?
  {
  }

  /**
   An expired-unused finish closes the Call exactly when it holds the lease of the attempt's
   nonce, brings its pinned proof and one ref per entry, the attempt is not settled, and
   neither credit nor reservation stands in the way. It completes on any other Call exactly
   as a replay: released with this receipt digest and these refs.
   */
  lemma ExpiryFinishIff(r: Rows, d: Digest, refs: seq<string>, ok: bool, t: nat)
    ensures Expiry.Finish(r, d, refs, ok, t).1.FinishCompleted?
            <==>
            && r.call.Some?
            && var c := r.call.value;
            || (&& c.financial.Released? && c.result.RefusedResult? && c.result.receipt.Some?
                && c.result.receipt.value.evidenceHash == d && c.releaseRefs == Some(refs))
            || (&& c.state.ReconciliationRequired? && c.financial.OutcomeUnknown? && c.result.NeedsReconciliation?
                && c.result.receipt.Some? && c.result.receipt.value.accountAud
                && r.obligation.Some? && c.result.key in r.attempts
                && |refs| == 2 + (if c.promoGrants.Some? then c.promoGrants.value else 0)
                && (c.promoGrants.Some? ==> ok)
                && var a := r.attempts[c.result.key];
                && a.forCall && a.nonce.Some? && a.evidence == Some(d) && a.settlement != Some(Settled)
                && c.recon.Some? && c.recon.value.leaseOwner == Some(ExpiredUnused(a.nonce.value))
                && !Expiry.SpendConflicts(r, c.result.key, d))
  {
  }

  /** Every column an expired-unused close writes, and that it writes no other. */
  lemma ExpiryFinishWrites(r: Rows, d: Digest, refs: seq<string>, ok: bool, t: nat)
    requires r.call.Some? && r.call.value.state.ReconciliationRequired?
    requires r.call.value.result.NeedsReconciliation? && Expiry.Finish(r, d, refs, ok, t).1.FinishCompleted?
    ensures var after := Expiry.Finish(r, d, refs, ok, t).0;
            && r.call.value.result.key in r.attempts && r.obligation.Some? && r.call.value.result.receipt.Some?
            && |refs| >= 2 && after.call.Some?
            && var c, e, a := r.call.value, after.call.value, r.attempts[r.call.value.result.key];
            && after.attempts == r.attempts[c.result.key := a.(state := Observed, settlement := Some(NotSettled),
                                                                  unsignedMaterial := None)]
            && after.obligation == Some(Obligation(Reversed, r.obligation.value.settlementRef))
            && after.spend == (if r.spend.Some? && r.spend.value.key == c.result.key && r.spend.value.state.Liability?
                               then Some(r.spend.value.(state := SpendUnused, evidence := Some(d))) else r.spend)
            && e.state.Refused? && e.dispatchState.DispatchFailed? && e.financial.Released? && e.recon.None?
            && e.releaseRefs == Some(refs) && e.evidenceHash == Some(d) && e.updatedAt == t
            && e.reservationRefs == c.reservationRefs && e.settlementRefs == c.settlementRefs
            && e.promoGrants == c.promoGrants && e.toolSnapshotMatches == c.toolSnapshotMatches
            && e.result.RefusedResult? && e.result.code.SourceUnavailable? && e.result.receipt.Some?
            && var before, receipt := c.result.receipt.value, e.result.receipt.value;
            && receipt.state.ReceiptRefunded? && receipt.refundState.RefundReleased? && receipt.lossState.NoLoss?
            && receipt.evidenceHash == d && receipt.accountingRefs == Some(refs) && receipt.transactionRef == Some(refs[0])
            && receipt.settlementRef == before.settlementRef && receipt.accountAud == before.accountAud
  {
  }

  // ---- claiming and finishing a remedy of a paid result ----

  /**
   A paid-result claim is won exactly for a stopped, unsettled Call of an account, on its own
   submitted and reserved attempt. A lost result has no retained response at all; an HTTP
   error has one of status 300 to 599 with its three digests, the Tool as sold, and an attempt
   not known to be unpaid. Only an HTTP error may take over the short lease of response recovery.
   */
  lemma RemedyClaimIff(r: Rows, i: Remedy.RemedyIdentity, now: nat)
    ensures Remedy.Claim(r, i, now).1.Claimed?
            <==>
            && IsTransactionHash(i.hash) && r.call.Some?
            && var c := r.call.value;
            && c.state.ReconciliationRequired? && c.financial.OutcomeUnknown?
            && c.result.NeedsReconciliation? && c.result.receipt.Some? && c.result.receipt.value.accountAud
            && c.result.key in r.attempts
            && var a := r.attempts[c.result.key];
            && a.forCall && a.forInput && a.submissionStartedAt.Some? && a.payer.Some? && a.nonce.Some?
            && a.reservationRef.Some? && c.reservationRefs.Some?
            && (exists k :: 0 <= k < |c.reservationRefs.value| && c.reservationRefs.value[k] == a.reservationRef.value)
            && (i.httpError ==> c.toolSnapshotMatches) && LostOrFailed(a, i.httpError)
            && (c.recon.Some? && c.recon.value.leaseOwner.Some? && c.recon.value.leaseExpiresAt.Some?
                && c.recon.value.leaseExpiresAt.value > now ==>
                  var o := c.recon.value.leaseOwner.value;
                  || o == PaidResultLoss(Lower(i.hash), i.httpError) || (i.httpError && o.PaidResponse?))
  {
  }

  /** What a won paid-result claim writes, and that it answers the attempt as stored. */
  lemma RemedyClaimWrites(r: Rows, i: Remedy.RemedyIdentity, now: nat)
    requires Remedy.Claim(r, i, now).1.Claimed?
    ensures var (after, answer) := Remedy.Claim(r, i, now);
            && r.call.Some? && r.call.value.result.NeedsReconciliation? && r.call.value.result.key in r.attempts
            && answer.attempt == r.attempts[r.call.value.result.key]
            && var c := r.call.value;
            && after == r.(call := Some(c.(recon := Some(Reconciliation(
                 ManualReview, RefundPending, if c.recon.Some? then c.recon.value.attemptCount else 0, now,
                 Some(PaidResultLoss(Lower(i.hash), i.httpError)), Some(9007199254740991))))))
  {
  }

  /** A claim answers "completed" exactly for a Call this transaction and failure kind already closed. */
  lemma RemedyCompletedIff(r: Rows, i: Remedy.RemedyIdentity, now: nat)
    ensures Remedy.Claim(r, i, now).1.AlreadyCompleted?
            <==>
            && IsTransactionHash(i.hash) && r.call.Some?
            && var c := r.call.value;
            && c.state.Refused? && c.result.RefusedResult? && c.result.receipt.Some?
            && c.result.receipt.value.refundState.RefundReleased?
            && c.result.receipt.value.settlementRef == Some(Lower(i.hash))
            && (if i.httpError then c.result.code.ProviderRefused? && c.result.receipt.value.lossState.ProviderHttpError?
                else c.result.code.ResultInvalid?)
    ensures !Remedy.Claim(r, i, now).1.Claimed? ==> Remedy.Claim(r, i, now).0 == r
  {
  }

  /** A paid-result finish closes the Call exactly when it holds the remedy's lease on a Call it could still claim. */
  lemma RemedyFinishIff(r: Rows, i: Remedy.RemedyIdentity, d: Digest, refs: seq<string>, ok: bool, t: nat)
    requires r.call.Some? && r.call.value.state.ReconciliationRequired?
    ensures Remedy.Finish(r, i, d, refs, ok, t).1.FinishCompleted?
            <==>
            && !d.Malformed? && r.obligation.Some?
            && var c := r.call.value;
            && c.financial.OutcomeUnknown? && c.result.NeedsReconciliation?
            && c.result.receipt.Some? && c.result.receipt.value.accountAud && c.result.key in r.attempts
            && c.recon.Some? && c.recon.value.leaseOwner == Some(PaidResultLoss(Lower(i.hash), i.httpError))
            && |refs| == 2 + (if c.promoGrants.Some? then c.promoGrants.value else 0)
            && (c.promoGrants.Some? ==> ok)
            && var a := r.attempts[c.result.key];
            && a.forCall && a.forInput && a.submissionStartedAt.Some? && a.payer.Some? && a.nonce.Some?
            && a.reservationRef.Some? && c.reservationRefs.Some?
            && (exists k :: 0 <= k < |c.reservationRefs.value| && c.reservationRefs.value[k] == a.reservationRef.value)
            && (i.httpError ==> c.toolSnapshotMatches) && LostOrFailed(a, i.httpError)
  {
  }

  /** On a Call that left reconciliation it completes exactly as a replay of its own close, and writes nothing. */
  lemma RemedyReplayIff(r: Rows, i: Remedy.RemedyIdentity, d: Digest, refs: seq<string>, ok: bool, t: nat)
    requires r.call.Some? && !r.call.value.state.ReconciliationRequired?
    ensures Remedy.Finish(r, i, d, refs, ok, t).0 == r
    ensures Remedy.Finish(r, i, d, refs, ok, t).1.FinishCompleted?
            <==>
            && !d.Malformed?
            && var c := r.call.value;
            && c.state.Refused? && c.result.RefusedResult? && c.result.receipt.Some?
            && c.result.receipt.value.evidenceHash == d && c.result.receipt.value.accountingRefs == Some(refs)
            && c.result.receipt.value.settlementRef == Some(Lower(i.hash))
            && (if i.httpError then c.result.code.ProviderRefused? && c.result.receipt.value.lossState.ProviderHttpError?
                else c.result.code.ResultInvalid?)
  {
  }

  /**
   Every column a paid-result close writes: the first posted ref is the buyer's, the second
   the Provider's, the others the promotional grants'.
   */
  lemma RemedyFinishWrites(r: Rows, i: Remedy.RemedyIdentity, d: Digest, refs: seq<string>, ok: bool, t: nat)
    requires r.call.Some? && r.call.value.state.ReconciliationRequired?
    requires r.call.value.result.NeedsReconciliation? && Remedy.Finish(r, i, d, refs, ok, t).1.FinishCompleted?
    ensures var after := Remedy.Finish(r, i, d, refs, ok, t).0;
            && r.call.value.result.key in r.attempts && r.call.value.result.receipt.Some? && |refs| >= 2
            && after.call.Some? && after.spend == r.spend
            && var buyer, provider, grants := refs[0], refs[1], refs[2..];
            && var c, e, a := r.call.value, after.call.value, r.attempts[r.call.value.result.key];
            && after.attempts == r.attempts[c.result.key := a.(state := Observed, settlement := Some(Settled), evidence := Some(d))]
            && after.obligation == Some(Obligation(ObligationSettled, Some(provider)))
            && e.state.Refused? && e.dispatchState.DispatchFailed? && e.financial.Released? && e.recon.None?
            && e.releaseRefs == Some([buyer] + grants) && e.settlementRefs == Some([provider])
            && e.evidenceHash == Some(d) && e.updatedAt == t
            && e.reservationRefs == c.reservationRefs && e.promoGrants == c.promoGrants
            && e.toolSnapshotMatches == c.toolSnapshotMatches
            && e.result.RefusedResult? && e.result.receipt.Some?
            && e.result.code == (if i.httpError then ProviderRefused else ResultInvalid)
            && var before, receipt := c.result.receipt.value, e.result.receipt.value;
            && receipt.state.ReceiptRefunded? && receipt.refundState.RefundReleased?
            && receipt.lossState == (if i.httpError then ProviderHttpError else LossUnknown)
            && receipt.evidenceHash == d && receipt.settlementRef == Some(Lower(i.hash))
            && receipt.accountingRefs == Some([buyer, provider] + grants) && receipt.transactionRef == Some(buyer)
            && receipt.accountAud == before.accountAud
  {
    assert refs == [refs[0], refs[1]] + refs[2..];
  }

  // ---- scheduling, proving and verifying ----

  /** A successor is armed exactly for a stopped Call that is not held, up to attempt four, and never before it is due. */
  lemma ScheduleIff(r: Rows, attempt: nat, runAt: nat, now: nat)
    ensures var (after, at) := Expiry.Schedule(r, attempt, runAt, now);
            var open := r.call.Some? && r.call.value.state.ReconciliationRequired?
                        && !(r.call.value.recon.Some? && r.call.value.recon.value.disposition.ManualReview?
                             && r.call.value.recon.value.reason.UnknownSettlement?);
            && (at.Some? <==> open && attempt < 5)
            && (at.Some? ==> at.value >= now && at.value >= runAt && (at.value == now || at.value == runAt))
            && (after != r ==> open && attempt >= 5)
            && (open && attempt >= 5 ==>
                  && after == r.(call := after.call) && after.call.Some?
                  && after.call.value == r.call.value.(recon := after.call.value.recon) && after.call.value.recon.Some?
                  && var before, review := r.call.value.recon, after.call.value.recon.value;
                  && review.disposition.ManualReview? && review.reason.RecoveryFailed?
                  && review.attemptCount == attempt && review.nextAttemptAt == now
                  && review.leaseOwner == (if before.Some? then before.value.leaseOwner else None)
                  && review.leaseExpiresAt == (if before.Some? then before.value.leaseExpiresAt else None))
  {
  }

  /** A run proves non-payment exactly from a complete unpaid attempt, at least one block, agreeing blocks and a matching booking. */
  lemma ProveIff(s: Sys, run: nat, blocks: seq<Block>, matches: bool)
    requires run in s.expiry && s.expiry[run].Armed?
    ensures var after := ProveUnused(s, run, blocks, matches);
            && after == s.(expiry := after.expiry)
            && (forall j :: j != run ==> (j in after.expiry <==> j in s.expiry) && (j in s.expiry ==> after.expiry[j] == s.expiry[j]))
            && (run in after.expiry
                <==>
                && matches && |blocks| > 0
                && (forall i, j :: 0 <= i < j < |blocks| && blocks[i].number == blocks[j].number ==>
                      blocks[i].hash == blocks[j].hash && blocks[i].timestamp == blocks[j].timestamp)
                && s.rows.call.Some? && s.rows.call.value.result.NeedsReconciliation?
                && s.rows.call.value.result.key in s.rows.attempts
                && var a := s.rows.attempts[s.rows.call.value.result.key];
                && a.identityDigest.Some? && a.payer.Some? && a.nonce.Some? && a.expiresAt.Some? && a.forCall && a.forInput
                && MayBeUnpaid(a))
            && (run in after.expiry ==>
                  && var key := s.rows.call.value.result.key;
                  && var a, at := s.rows.attempts[key], after.expiry[run];
                  && at.Proved? && at.chain == s.expiry[run].chain && at.attempt == s.expiry[run].attempt
                  && at.proof.key == key && Some(at.proof.identityDigest) == a.identityDigest
                  && Some(at.proof.nonce) == a.nonce && at.proof.digest == ExpiryProof(key, at.proof.nonce, blocks))
  {
    if BlocksAgree(blocks) {
      forall i, j | 0 <= i < j < |blocks| && blocks[i].number == blocks[j].number
        ensures blocks[i].hash == blocks[j].hash && blocks[i].timestamp == blocks[j].timestamp
      {
        assert blocks[i] == blocks[j];
      }
    } else {
      var i, j :| 0 <= i < |blocks| && 0 <= j < |blocks| && blocks[i].number == blocks[j].number && blocks[i] != blocks[j];
      assert i < j || j < i;
    }
  }

  /** A remedy is verified exactly from the Call's own complete attempt, its response as the failure kind says, and the chain. */
  lemma VerifyIff(s: Sys, run: nat, verified: bool)
    requires run in s.remedy && s.remedy[run].Requested?
    ensures var after := VerifyPayment(s, run, verified);
            && after == s.(remedy := after.remedy)
            && (run in after.remedy
                <==>
                && verified && IsTransactionHash(s.remedy[run].id.hash)
                && s.rows.call.Some? && s.rows.call.value.result.NeedsReconciliation?
                && s.rows.call.value.result.key in s.rows.attempts
                && var a := s.rows.attempts[s.rows.call.value.result.key];
                && a.forCall && a.forInput && a.payer.Some? && a.nonce.Some? && a.admittedToken
                && LostOrFailed(a, s.remedy[run].id.httpError))
            && (run in after.remedy ==>
                  var key := s.rows.call.value.result.key;
                  after.remedy[run] == Verified(s.remedy[run].id, key, s.rows.attempts[key]))
  {
  }

  // ---- every posting had its ground ----

  /** Here an expired-unused claim is won for this proof, on an attempt that may be unpaid and has run out. */
  ghost predicate UnusedGroundAt(before: Sys, e: Event, w: Claimant) {
    && e.ClaimUnused? && w.ByExpiry?
    && before.rows.call.Some? && before.rows.call.value.result.NeedsReconciliation?
    && before.rows.call.value.result.key == w.key && w.key in before.rows.attempts
    && var a := before.rows.attempts[w.key];
    && a.forCall && a.forInput && a.nonce == Some(w.nonce) && MayBeUnpaid(a)
    && a.expiresAt.Some? && a.expiresAt.value <= e.now
    && e.run in before.expiry && before.expiry[e.run].Proved?
    && before.expiry[e.run].proof.digest == w.digest
  }

  /** Here a paid-result claim is won for this transaction, on a submitted attempt whose result was lost or failed. */
  ghost predicate PaidGroundAt(before: Sys, e: Event, w: Claimant) {
    && e.ClaimPaid? && w.ByRemedy?
    && before.rows.call.Some? && before.rows.call.value.result.NeedsReconciliation?
    && before.rows.call.value.result.key in before.rows.attempts
    && var a := before.rows.attempts[before.rows.call.value.result.key];
    && a.forCall && a.forInput && a.submissionStartedAt.Some? && a.payer.Some? && a.nonce.Some?
    && LostOrFailed(a, w.httpError)
    && e.run in before.remedy && before.remedy[e.run].Verified?
    && Lower(before.remedy[e.run].id.hash) == w.hash
    && before.remedy[e.run].id.httpError == w.httpError
  }

  /** Moment `k` of a run was such a moment. */
  ghost predicate UnusedGround(s: Sys, events: seq<Event>, k: nat, w: Claimant) {
    k < |events| && UnusedGroundAt(Run(s, events[..k]), events[k], w)
  }

  ghost predicate PaidGround(s: Sys, events: seq<Event>, k: nat, w: Claimant) {
    k < |events| && PaidGroundAt(Run(s, events[..k]), events[k], w)
  }

  ghost predicate Grounded(s: Sys, events: seq<Event>, w: Claimant) {
    exists k: nat :: UnusedGround(s, events, k, w) || PaidGround(s, events, k, w)
  }

  lemma GroundStays(s: Sys, events: seq<Event>, e: Event, w: Claimant)
    requires Grounded(s, events, w)
    ensures Grounded(s, events + [e], w)
  {
    var k: nat :| UnusedGround(s, events, k, w) || PaidGround(s, events, k, w);
    assert (events + [e])[..k] == events[..k] && (events + [e])[k] == events[k];
    assert UnusedGround(s, events + [e], k, w) || PaidGround(s, events + [e], k, w);
  }

  lemma UnusedClaimGrounded(s: Sys, e: Event)
    requires e.ClaimUnused? && s.claims == [] && Step(s, e).claims != []
    requires NoRefundLease(s.rows)
    ensures UnusedGroundAt(s, e, Step(s, e).claims[0])
  {
    ExpiryClaimIff(s.rows, s.expiry[e.run].proof, e.now);
    ExpiryClaimWrites(s.rows, s.expiry[e.run].proof, e.now);
  }

  lemma PaidClaimGrounded(s: Sys, e: Event)
    requires e.ClaimPaid? && s.claims == [] && Step(s, e).claims != []
    ensures PaidGroundAt(s, e, Step(s, e).claims[0])
  {
    RemedyClaimIff(s.rows, s.remedy[e.run].id, e.now);
  }

  /** The first claim of a run has its ground at the moment it is won. */
  lemma FirstClaimGrounded(s: Sys, events: seq<Event>, e: Event)
    requires Initial(s) && Run(s, events).claims == [] && Run(s, events + [e]).claims != []
    ensures Grounded(s, events + [e], Run(s, events + [e]).claims[0])
  {
    var all, before := events + [e], Run(s, events);
    assert all[..|events|] == events && all[|events|] == e;
    Safety.RunIsFenced(s, events);
    assert Safety.RowsAgree(before.rows, None);
    if e.ClaimUnused? {
      UnusedClaimGrounded(before, e);
      assert UnusedGround(s, all, |events|, Run(s, all).claims[0]);
    } else {
      PaidClaimGrounded(before, e);
      assert PaidGround(s, all, |events|, Run(s, all).claims[0]);
    }
  }

  lemma {:induction false} WinnerGrounded(s: Sys, events: seq<Event>)
    requires Initial(s) && Run(s, events).claims != []
    ensures Grounded(s, events, Run(s, events).claims[0])
  {
    var before, e := events[..|events| - 1], events[|events| - 1];
    assert before + [e] == events;
    if Run(s, before).claims == [] {
      FirstClaimGrounded(s, before, e);
    } else {
      WinnerGrounded(s, before);
      Retries.ClaimsGrow(Run(s, before), e);
      GroundStays(s, before, e, Run(s, events).claims[0]);
    }
  }

  /**
   Over every run, each posting goes back to a moment of that run at which its family's claim
   was won on a ground the stored attempt then gave: a release to an attempt that may be
   unpaid and had run out, under the very proof it carries; a remedy to a submitted attempt
   whose result was lost, or failed as the remedy says, for the very transaction it carries.
   */
  lemma {:induction false} EveryPostingHadItsGround(s: Sys, events: seq<Event>, j: nat)
    requires Initial(s) && j < |Run(s, events).ledger|
    ensures match Run(s, events).ledger[j]
            case Release(_, _, digest) =>
              exists k: nat, key, nonce :: UnusedGround(s, events, k, ByExpiry(key, nonce, digest))
            case PaidRemedy(hash, httpError, _) =>
              exists k: nat :: PaidGround(s, events, k, ByRemedy(hash, httpError))
  {
    Safety.RunIsFenced(s, events);
    var end := Run(s, events);
    assert Safety.PostingAgrees(end.ledger[j], Safety.Winner(end));
    WinnerGrounded(s, events);
    var w := end.claims[0];
    var k: nat :| UnusedGround(s, events, k, w) || PaidGround(s, events, k, w);
    match end.ledger[j]
    case Release(_, _, digest) => assert UnusedGround(s, events, k, ByExpiry(w.key, w.nonce, digest));
    case PaidRemedy(hash, httpError, _) => assert PaidGround(s, events, k, ByRemedy(hash, httpError));
  }
}
