/**
 The refund mutations and actions as they run: tables patched row by row, with
 early returns and rollback. Every mutation is proved equal to its row function,
 and every action, run without interruption, to a run of the protocol.
 */
module RefundTables {
  import opened Wrappers
  import opened LeaseOwners
  import opened RefundRows
  import Expiry = ExpiryMutations
  import Remedy = RemedyMutations
  import P = RefundProtocol

  datatype RecoverAnswer = RecoverCompleted | RecoverPending | NotEligible
  datatype RemedyAnswer = RemedyCompleted | RemedyRefused(code: string)

  /** The stored result already answers for this transaction and failure kind. */
  predicate AlreadyRemedied(r: Rows, id: Remedy.RemedyIdentity) {
    && r.call.Some? && Remedy.RefusedByRemedy(r.call.value, id.httpError)
    && r.call.value.result.receipt.Some? && r.call.value.result.receipt.value.refundState == RefundReleased
    && r.call.value.result.receipt.value.settlementRef == Some(id.hash)
  }

  /** What a verified remedy answers. */
  function VerifiedOutcome(r: Rows, id: Remedy.RemedyIdentity, now: nat, bookingMatches: bool,
                           posted: Option<seq<string>>, restorable: bool): RemedyAnswer
    requires P.ReadsAsPaid(r, id)
  {
    var (held, claim) := Remedy.Claim(r, id, now);
    if !claim.Claimed? then RemedyRefused("call_not_eligible")
    else if !bookingMatches then RemedyRefused("booking_unavailable")
    else if posted.None? then RemedyRefused("credit_restoration_pending")
    else
      var digest := P.LossDigest(id, r.call.value.result.key, r.attempts[r.call.value.result.key]);
      if Remedy.Finish(held, id, digest, posted.value, restorable, now).1.FinishCompleted? then RemedyCompleted
      else RemedyRefused("receipt_update_pending")
  }

  /** What an uninterrupted remedy answers, from the rows it finds and the answers it gets. */
  function RemedyOutcome(r: Rows, id: Remedy.RemedyIdentity, now: nat, verified: bool, bookingMatches: bool,
                         posted: Option<seq<string>>, restorable: bool): RemedyAnswer
  {
    if AlreadyRemedied(r, id) then RemedyCompleted
    else if !P.RemedyAsked(r, id) then RemedyRefused("call_not_eligible")
    else if !P.ReadsAsPaid(r, id) then RemedyRefused("payment_identity_unavailable")
    else if !verified then RemedyRefused("payment_not_verified")
    else VerifiedOutcome(r, id, now, bookingMatches, posted, restorable)
  }

  predicate BuyerRefunded(r: Rows) {
    && r.call.Some? && r.call.value.result.RefusedResult? && r.call.value.result.receipt.Some?
    && r.call.value.result.receipt.value.refundState == RefundReleased
  }

  /** What an uninterrupted recover run answers once its successor is armed. */
  function ArmedOutcome(r: Rows, now: nat, blocks: seq<Block>, bookingMatches: bool,
                        posted: Option<seq<string>>, restorable: bool): RecoverAnswer
  {
    if BuyerRefunded(r) then RecoverCompleted
    else if !P.ReadsAsUnused(r) then NotEligible
    else if blocks == [] || !P.BlocksAgree(blocks) || !bookingMatches then RecoverPending
    else
      var key := r.call.value.result.key;
      var a := r.attempts[key];
      var proof := Expiry.ExpiryProofArgs(key, a.identityDigest.value, a.nonce.value, ExpiryProof(key, a.nonce.value, blocks));
      var (held, pin) := Expiry.Claim(r, proof, now);
      if pin.None? || posted.None? then RecoverPending
      else if Expiry.Finish(held, pin.value, posted.value, restorable, now).1.FinishCompleted? then RecoverCompleted
      else RecoverPending
  }

  /** What an uninterrupted recover run answers. */
  function RecoverOutcome(r: Rows, attempt: nat, now: nat, blocks: seq<Block>, bookingMatches: bool,
                          posted: Option<seq<string>>, restorable: bool): RecoverAnswer
  {
    var (rows, at) := Expiry.Schedule(r, attempt + 1, now + Expiry.SuccessorGap(attempt), now);
    if at.None? then if BuyerRefunded(rows) then RecoverCompleted else RecoverPending
    else ArmedOutcome(rows, now, blocks, bookingMatches, posted, restorable)
  }

  class Backend {
    var call: Option<Call>
    var attempts: map<AttemptKey, Attempt>
    var obligation: Option<Obligation>
    var spend: Option<Spend>
    var effects: seq<Effect>
    var ledger: seq<P.Posting>
    var timers: map<nat, P.Timer>
    var nextTimer: nat

    constructor (rows: Rows)
      ensures this.Rows() == rows && ledger == [] && timers == map[] && nextTimer == 0
    {
      call, attempts, obligation, spend, effects := rows.call, rows.attempts, rows.obligation, rows.spend, rows.effects;
      ledger, timers, nextTimer := [], map[], 0;
    }

    function Rows(): Rows
      reads this
    {
      RefundRows.Rows.Rows(call, attempts, obligation, spend, effects)
    }

    // ---- expired-unused mutations ----

    method ClaimExpiry(p: Expiry.ExpiryProofArgs, now: nat) returns (pinned: Option<Digest>)
      modifies this`call, this`attempts
      ensures (Rows(), pinned) == Expiry.Claim(old(Rows()), p, now)
    {
      pinned := None;
      if call.Some? && HeldForUnknownSettlement(call.value) { return; }
      if call.None? || !OpenForRefund(call.value) || call.value.result.key != p.key || !IsSha256(p.digest) { return; }
      if p.key !in attempts { return; }
      var attempt := attempts[p.key];
      if !attempt.forCall || !attempt.forInput
         || attempt.identityDigest != Some(p.identityDigest) || attempt.nonce != Some(p.nonce)
         || attempt.expiresAt.None? || attempt.expiresAt.value > now
         || attempt.settlement == Some(Settled) || !Expiry.ResponsePermitsUnusedProof(attempt)
         || attempt.reservationRef.None? || !ReservedBy(call.value, attempt) { return; }
      var lease := call.value.recon;
      var owner := ExpiredUnused(p.nonce);
      if lease.Some? && lease.value.leaseOwner.Some? && lease.value.leaseOwner.value != owner
         && (if lease.value.leaseExpiresAt.Some? then lease.value.leaseExpiresAt.value else 0) > now { return; }
      if lease.Some? && lease.value.leaseOwner == Some(owner) && attempt.evidence.Some? {
        return attempt.evidence;
      }
      attempts := attempts[p.key := attempt.(evidence := Some(p.digest))];
      call := Some(call.value.(recon := Some(Reconciliation(
        Automatic, RefundPending, if lease.Some? then lease.value.attemptCount else 0,
        MAX_SAFE_INTEGER, Some(owner), Some(MAX_SAFE_INTEGER)))));
      pinned := Some(p.digest);
    }

    /** Restores promotional credit; false makes the caller throw. */
    method RestorePromotionalCredit(restorable: bool) returns (restored: bool)
      requires call.Some?
      modifies this`effects
      ensures restored == (call.value.promoGrants.Some? ==> restorable)
      ensures Rows() == if restored then Expiry.RestoreCredit(old(Rows())) else old(Rows())
    {
      restored := true;
      if call.value.promoGrants.Some? {
        if !restorable { return false; }
        effects := effects + [CreditRestored];
      }
    }

    /** Closes a liability as unused; false is the conflict that makes the caller throw. */
    method ResolveSpendUnused(key: AttemptKey, digest: Digest) returns (resolved: bool)
      requires key in attempts
      modifies this`spend, this`effects
      ensures resolved == !Expiry.SpendConflicts(old(Rows()), key, digest)
      ensures Rows() == if resolved then Expiry.CloseSpendUnused(old(Rows()), key, digest) else old(Rows())
    {
      if spend.None? || spend.value.key != key { return true; }
      var reserved, terms, attempt := spend.value.terms, attempts[key].terms, attempts[key];
      if reserved.reservationRef != terms.reservationRef || reserved.custodyRef != terms.custodyRef
         || reserved.dispatchRef != terms.dispatchRef || reserved.authorizationDigest != terms.authorizationDigest
         || spend.value.identityDigest != attempt.identityDigest
         || reserved.unsignedMaterialDigest != terms.unsignedMaterialDigest || reserved.signingKey != terms.signingKey
         || reserved.amountUnits != terms.amountUnits || reserved.payTo != Lower(terms.payTo)
         || !IsSha256(digest) { return false; }
      match spend.value.state {
        case SpendSettled => return false;
        case SpendUnused => return true;
        case Liability =>
          spend := Some(spend.value.(state := SpendUnused, evidence := Some(digest)));
          effects := effects + [SpendClosed(SpendUnused)];
          return true;
      }
    }

    /** `restorable` answers the credit restore. A throw rolls every table back. */
    method FinishExpiry(digest: Digest, refs: seq<string>, restorable: bool, now: nat) returns (kind: Expiry.FinishKind)
      modifies this`call, this`attempts, this`obligation, this`spend, this`effects
      ensures (Rows(), kind) == Expiry.Finish(old(Rows()), digest, refs, restorable, now)
    {
      if call.Some? && Expiry.ReleasedWith(call.value, digest) {
        if call.value.releaseRefs != Some(refs) { return Expiry.FinishRefused; }
        call := Some(call.value.(result := call.value.result.(code := SourceUnavailable)));
        return Expiry.FinishCompleted;
      }
      if call.None? || !OpenForRefund(call.value)
         || call.value.recon.None? || call.value.recon.value.leaseOwner.None?
         || !call.value.recon.value.leaseOwner.value.ExpiredUnused?
         || |refs| != RefundEntries(call.value) { return Expiry.FinishRefused; }
      var key := call.value.result.key;
      if key !in attempts || obligation.None? { return Expiry.FinishRefused; }
      var attempt := attempts[key];
      if !attempt.forCall || attempt.evidence != Some(digest) || attempt.nonce.None?
         || call.value.recon.value.leaseOwner != Some(ExpiredUnused(attempt.nonce.value))
         || attempt.settlement == Some(Settled) { return Expiry.FinishRefused; }
      var before := effects;
      var restored := RestorePromotionalCredit(restorable);
      if !restored { return Expiry.Aborted; }
      var resolved := ResolveSpendUnused(key, digest);
      if !resolved {
        effects := before;
        return Expiry.Aborted;
      }
      attempts := attempts[key := attempt.(state := Observed, settlement := Some(NotSettled), unsignedMaterial := None)];
      obligation := Some(obligation.value.(state := Reversed));
      effects := effects + [ObligationClosed(Reversed)];
      var receipt := call.value.result.receipt.value.(
        state := ReceiptRefunded, refundState := RefundReleased, lossState := NoLoss,
        evidenceHash := digest, accountingRefs := Some(refs), transactionRef := Some(refs[0]));
      call := Some(call.value.(
        state := Refused, dispatchState := DispatchFailed, result := RefusedResult(SourceUnavailable, Some(receipt)),
        financial := Released, releaseRefs := Some(refs), recon := None, evidenceHash := Some(digest), updatedAt := now));
      kind := Expiry.FinishCompleted;
    }

    /** Arms the next recover run; past the last attempt it only records manual review. */
    method ScheduleExpiry(chain: nat, attempt: nat, runAt: nat, now: nat) returns (armed: bool)
      modifies this`call, this`timers, this`nextTimer
      ensures var (rows, at) := Expiry.Schedule(old(Rows()), attempt, runAt, now);
              && Rows() == rows && armed == at.Some?
              && (if armed then timers == old(timers)[old(nextTimer) := P.Timer(chain, attempt, at.value)]
                                && nextTimer == old(nextTimer) + 1
                  else timers == old(timers) && nextTimer == old(nextTimer))
    {
      if call.None? || !call.value.state.ReconciliationRequired? { return false; }
      if HeldForUnknownSettlement(call.value) { return false; }
      if attempt >= 5 {
        call := Some(call.value.(recon := Some(Expiry.ManualReviewAfter(call.value.recon, attempt, now))));
        return false;
      }
      timers := timers[nextTimer := P.Timer(chain, attempt, if now < runAt then runAt else now)];
      nextTimer := nextTimer + 1;
      armed := true;
    }

    // ---- paid-result mutations ----

    method ClaimRemedy(i: Remedy.RemedyIdentity, now: nat) returns (answer: Remedy.ClaimAnswer)
      modifies this`call
      ensures (Rows(), answer) == Remedy.Claim(old(Rows()), i, now)
    {
      if !IsTransactionHash(i.hash) || call.None? { return Remedy.ClaimNull; }
      if Remedy.ClosedFor(call.value, i) { return Remedy.AlreadyCompleted; }
      if !OpenForRefund(call.value) || call.value.result.key !in attempts { return Remedy.ClaimNull; }
      var attempt := attempts[call.value.result.key];
      if !Remedy.SubmittedAttempt(call.value, attempt, i.httpError) { return Remedy.ClaimNull; }
      var lease := call.value.recon;
      var owner := RemedyOwner(i.hash, i.httpError);
      if lease.Some? && lease.value.leaseOwner.Some? && lease.value.leaseOwner.value != owner
         && !(i.httpError && lease.value.leaseOwner.value.PaidResponse?)
         && (if lease.value.leaseExpiresAt.Some? then lease.value.leaseExpiresAt.value else 0) > now {
        return Remedy.ClaimNull;
      }
      call := Some(call.value.(recon := Some(Reconciliation(
        ManualReview, RefundPending, if lease.Some? then lease.value.attemptCount else 0,
        now, Some(owner), Some(MAX_SAFE_INTEGER)))));
      answer := Remedy.Claimed(attempt);
    }

    method FinishRemedy(i: Remedy.RemedyIdentity, digest: Digest, refs: seq<string>, restorable: bool, now: nat)
      returns (kind: Expiry.FinishKind)
      modifies this`call, this`attempts, this`obligation, this`effects
      ensures (Rows(), kind) == Remedy.Finish(old(Rows()), i, digest, refs, restorable, now)
    {
      if !IsSha256(digest) { return Expiry.FinishRefused; }
      if call.Some? && Remedy.ReplayedWith(call.value, i, digest, refs) { return Expiry.FinishCompleted; }
      if call.None? || !OpenForRefund(call.value) || !LeasedTo(call.value, RemedyOwner(i.hash, i.httpError))
         || |refs| != RefundEntries(call.value) { return Expiry.FinishRefused; }
      var buyerRef, providerRef := refs[0], refs[1];
      var key := call.value.result.key;
      if key !in attempts || obligation.None?
         || !Remedy.SubmittedAttempt(call.value, attempts[key], i.httpError) { return Expiry.FinishRefused; }
      var restored := RestorePromotionalCredit(restorable);
      if !restored { return Expiry.Aborted; }
      var receipt := call.value.result.receipt.value.(
        state := ReceiptRefunded, refundState := RefundReleased,
        lossState := if i.httpError then ProviderHttpError else LossUnknown, evidenceHash := digest,
        settlementRef := Some(Lower(i.hash)), accountingRefs := Some(refs), transactionRef := Some(buyerRef));
      attempts := attempts[key := attempts[key].(state := Observed, settlement := Some(Settled), evidence := Some(digest))];
      obligation := Some(Obligation(ObligationSettled, Some(providerRef)));
      effects := effects + [ObligationClosed(ObligationSettled)];
      call := Some(call.value.(
        state := Refused, dispatchState := DispatchFailed,
        result := RefusedResult(if i.httpError then ProviderRefused else ResultInvalid, Some(receipt)),
        evidenceHash := Some(digest), financial := Released, releaseRefs := Some([buyerRef] + refs[2..]),
        settlementRefs := Some([providerRef]), recon := None, updatedAt := now));
      kind := Expiry.FinishCompleted;
    }

    // ---- the actions, uninterrupted ----

    predicate RefundReleasedToBuyer()
      reads this
    {
      BuyerRefunded(Rows())
    }

    /** The tables and the machine agree, and the machine holds at most this one recover run. */
    ghost predicate Mirrors(s: P.Sys, run: nat, at: Option<P.ExpiryRun>)
      reads this
    {
      && s.rows == Rows() && s.ledger == ledger && s.timers == timers && s.next == nextTimer
      && s.expiry == (if at.Some? then map[run := at.value] else map[])
    }

    /** The protocol state in which one recover run has just started on these tables. */
    ghost function Starting(chain: nat, attempt: nat): P.Sys
      reads this
    {
      P.Sys(Rows(), map[nextTimer + 1 := P.Entered(chain, attempt)], map[], timers, nextTimer,
            ledger, [], map[], {})
    }

    /** Reads the attempt and checks the RPC answers; no proof ends the run with `answer`. */
    method ProveUnused(ghost s: P.Sys, ghost run: nat, chain: nat, attempt: nat, now: nat,
                       blocks: seq<Block>, bookingMatches: bool)
      returns (answer: RecoverAnswer, proof: Option<Expiry.ExpiryProofArgs>, ghost after: P.Sys)
      requires Mirrors(s, run, Some(P.Armed(chain, attempt))) && now < MAX_SAFE_INTEGER
      ensures after == P.ProveUnused(s, run, blocks, bookingMatches)
      ensures Mirrors(after, run, if proof.Some? then Some(P.Proved(chain, attempt, proof.value)) else None)
      ensures answer == RecoverCompleted <==> RefundReleasedToBuyer()
      ensures proof == if BuyerRefunded(Rows()) || !P.ReadsAsUnused(Rows()) || blocks == [] || !P.BlocksAgree(blocks)
                          || !bookingMatches then None
                       else var key := call.value.result.key;
                            Some(Expiry.ExpiryProofArgs(key, attempts[key].identityDigest.value, attempts[key].nonce.value,
                                                        ExpiryProof(key, attempts[key].nonce.value, blocks)))
      ensures answer == if BuyerRefunded(Rows()) then RecoverCompleted
                        else if !P.ReadsAsUnused(Rows()) then NotEligible else RecoverPending
    {
      proof := None;
      after := P.ProveUnused(s, run, blocks, bookingMatches);
      if RefundReleasedToBuyer() { return RecoverCompleted, None, after; }
      if !P.ReadsAsUnused(Rows()) { return NotEligible, None, after; }
      answer := RecoverPending;
      if blocks == [] || !P.BlocksAgree(blocks) || !bookingMatches { return; }
      var key := call.value.result.key;
      var nonce := attempts[key].nonce.value;
      proof := Some(Expiry.ExpiryProofArgs(key, attempts[key].identityDigest.value, nonce, ExpiryProof(key, nonce, blocks)));
    }

    method PinClaim(ghost s: P.Sys, ghost run: nat, chain: nat, attempt: nat, now: nat, proof: Expiry.ExpiryProofArgs)
      returns (pinned: Option<Digest>, ghost after: P.Sys)
      requires Mirrors(s, run, Some(P.Proved(chain, attempt, proof))) && now < MAX_SAFE_INTEGER
      modifies this`call, this`attempts
      ensures after == P.ClaimRun(s, run, now)
      ensures Mirrors(after, run, if pinned.Some? then Some(P.Pinned(chain, attempt, pinned.value)) else None)
      ensures pinned.Some? ==> call.Some? && OpenForRefund(call.value)
      ensures (Rows(), pinned) == Expiry.Claim(old(Rows()), proof, now)
    {
      PinnedRun(s, run, chain, attempt, now, proof);
      after := P.ClaimRun(s, run, now);
      pinned := ClaimExpiry(proof, now);
    }

    /** Posts the release; it landed if it was answered or `landed`. Without an answer the run ends here. */
    method PostRefund(ghost s: P.Sys, ghost run: nat, chain: nat, attempt: nat, now: nat, digest: Digest,
                      landed: bool, posted: Option<seq<string>>) returns (ghost after: P.Sys)
      requires Mirrors(s, run, Some(P.Pinned(chain, attempt, digest))) && now < MAX_SAFE_INTEGER
      requires posted.Some? ==> landed
      modifies this`ledger
      ensures after == P.ReleaseOnLedger(s, run, landed, posted)
      ensures Mirrors(after, run, if posted.Some? then Some(P.Booked(chain, attempt, digest, posted.value)) else None)
    {
      after := P.ReleaseOnLedger(s, run, landed, posted);
      if landed { ledger := ledger + [P.Release(chain, attempt, digest)]; }
    }

    method CloseUnused(ghost s: P.Sys, ghost run: nat, chain: nat, attempt: nat, now: nat, digest: Digest,
                       refs: seq<string>, restorable: bool) returns (answer: RecoverAnswer, ghost after: P.Sys)
      requires Mirrors(s, run, Some(P.Booked(chain, attempt, digest, refs))) && now < MAX_SAFE_INTEGER
      requires call.Some? && OpenForRefund(call.value)
      modifies this`call, this`attempts, this`obligation, this`spend, this`effects
      ensures after == P.FinishRun(s, run, restorable, now) && Mirrors(after, run, None)
      ensures answer == RecoverCompleted <==> RefundReleasedToBuyer()
      ensures answer == if Expiry.Finish(old(Rows()), digest, refs, restorable, now).1.FinishCompleted? then RecoverCompleted
                        else RecoverPending
    {
      after := P.FinishRun(s, run, restorable, now);
      var kind := FinishExpiry(digest, refs, restorable, now);
      answer := if kind == Expiry.FinishCompleted then RecoverCompleted else RecoverPending;
    }

    /** The five steps of a run, each mirrored by the machine. An ended run only stutters. */
    method RecoverStepwise(ghost s: P.Sys, chain: nat, attempt: nat, now: nat, blocks: seq<Block>, bookingMatches: bool,
                           landed: bool, posted: Option<seq<string>>, restorable: bool)
      returns (answer: RecoverAnswer, ghost after: P.Sys)
      requires now < MAX_SAFE_INTEGER && (posted.Some? ==> landed) && s == Starting(chain, attempt)
      modifies this
      ensures var run := old(nextTimer) + 1;
              && after == FromProve(P.ArmSuccessor(s, run, now, now), run, now, blocks, bookingMatches,
                                    landed, posted, restorable)
              && Mirrors(after, run, None)
      ensures answer == RecoverCompleted <==> RefundReleasedToBuyer()
      ensures answer == RecoverOutcome(old(Rows()), attempt, now, blocks, bookingMatches, posted, restorable)
    {
      ghost var run := nextTimer + 1;
      after := P.ArmSuccessor(s, run, now, now);
      var armed := ScheduleExpiry(chain, attempt + 1, now + Expiry.SuccessorGap(attempt), now);
      assert Mirrors(after, run, if armed then Some(P.Armed(chain, attempt)) else None);
      if !armed {
        EndedRunStutters(after, run, now, blocks, bookingMatches, landed, posted, restorable);
        return if RefundReleasedToBuyer() then RecoverCompleted else RecoverPending, after;
      }
      answer, after := RecoverArmed(after, run, chain, attempt, now, blocks, bookingMatches, landed, posted, restorable);
    }

    /** The steps of a run that has armed its successor. */
    method RecoverArmed(ghost s: P.Sys, ghost run: nat, chain: nat, attempt: nat, now: nat, blocks: seq<Block>,
                        bookingMatches: bool, landed: bool, posted: Option<seq<string>>, restorable: bool)
      returns (answer: RecoverAnswer, ghost after: P.Sys)
      requires now < MAX_SAFE_INTEGER && (posted.Some? ==> landed)
      requires Mirrors(s, run, Some(P.Armed(chain, attempt)))
      modifies this
      ensures after == FromProve(s, run, now, blocks, bookingMatches, landed, posted, restorable)
      ensures Mirrors(after, run, None)
      ensures answer == RecoverCompleted <==> RefundReleasedToBuyer()
      ensures answer == ArmedOutcome(old(Rows()), now, blocks, bookingMatches, posted, restorable)
    {
      after := s;
      var proof;
      answer, proof, after := ProveUnused(after, run, chain, attempt, now, blocks, bookingMatches);
      if proof.None? { EndedRunStutters(after, run, now, blocks, bookingMatches, landed, posted, restorable); return; }
      var pinned;
      pinned, after := PinClaim(after, run, chain, attempt, now, proof.value);
      if pinned.None? { EndedRunStutters(after, run, now, blocks, bookingMatches, landed, posted, restorable); return; }
      after := PostRefund(after, run, chain, attempt, now, pinned.value, landed, posted);
      if posted.None? { EndedRunStutters(after, run, now, blocks, bookingMatches, landed, posted, restorable); return; }
      answer, after := CloseUnused(after, run, chain, attempt, now, pinned.value, posted.value, restorable);
    }

    /** One recover run whose awaits are not interleaved. `blocks` and `posted` are what the RPCs and the ledger answer. */
    method Recover(chain: nat, attempt: nat, now: nat, blocks: seq<Block>, bookingMatches: bool,
                   landed: bool, posted: Option<seq<string>>, restorable: bool) returns (answer: RecoverAnswer)
      requires now < MAX_SAFE_INTEGER && (posted.Some? ==> landed)
      modifies this
      ensures var run := old(nextTimer) + 1;
              Mirrors(P.Run(old(Starting(chain, attempt)),
                            [P.Arm(now, run, now), P.Prove(now, run, blocks, bookingMatches), P.ClaimUnused(now, run),
                             P.PostRelease(now, run, landed, posted), P.FinishUnused(now, run, restorable)]), run, None)
      ensures answer == RecoverCompleted <==> RefundReleasedToBuyer()
      ensures answer == RecoverOutcome(old(Rows()), attempt, now, blocks, bookingMatches, posted, restorable)
    {
      ghost var run, s, after := nextTimer + 1, Starting(chain, attempt), Starting(chain, attempt);
      RecoverRun(s, run, now, blocks, bookingMatches, landed, posted, restorable);
      answer, after := RecoverStepwise(s, chain, attempt, now, blocks, bookingMatches, landed, posted, restorable);
    }

    /** As `Mirrors`, for one paid-result run. */
    ghost predicate Reflects(s: P.Sys, run: nat, at: Option<P.RemedyRun>)
      reads this
    {
      && s.rows == Rows() && s.ledger == ledger
      && s.remedy == (if at.Some? then map[run := at.value] else map[])
    }

    ghost function Requested(id: Remedy.RemedyIdentity): P.Sys
      reads this
    {
      P.Sys(Rows(), map[], map[0 := P.Requested(P.Asked(id))], map[], 1, ledger, [], map[], {})
    }

    /** Claims after verification; the run goes on only while it holds the Call. */
    method HoldCall(ghost s: P.Sys, ghost run: nat, id: Remedy.RemedyIdentity, key: AttemptKey, now: nat,
                    bookingMatches: bool)
      returns (answer: RemedyAnswer, digest: Option<Digest>, ghost after: P.Sys)
      requires call.Some? && call.value.result.NeedsReconciliation? && call.value.result.key == key && key in attempts
      requires Reflects(s, run, Some(P.Verified(id, key, attempts[key]))) && now < MAX_SAFE_INTEGER
      modifies this`call
      ensures after == P.ClaimPaidRun(s, run, bookingMatches, now)
      ensures Reflects(after, run, if digest.Some? then Some(P.Holding(id, digest.value)) else None)
      ensures digest.Some? ==> IsSha256(digest.value) && call.Some? && OpenForRefund(call.value)
      ensures answer == (if !Remedy.Claim(old(Rows()), id, now).1.Claimed? then RemedyRefused("call_not_eligible")
                         else if !bookingMatches then RemedyRefused("booking_unavailable")
                         else RemedyRefused("credit_restoration_pending"))
      ensures digest == if Remedy.Claim(old(Rows()), id, now).1.Claimed? && bookingMatches
                        then Some(P.LossDigest(id, key, old(attempts[key]))) else None
      ensures Rows() == Remedy.Claim(old(Rows()), id, now).0
    {
      digest := None;
      var seen := attempts[key];
      ClaimedRun(s, run, id, key, now, bookingMatches);
      after := P.ClaimPaidRun(s, run, bookingMatches, now);
      var claim := ClaimRemedy(id, now);
      match claim {
        case ClaimNull => answer := RemedyRefused("call_not_eligible");
        case AlreadyCompleted => assert false; answer := RemedyCompleted;
        case Claimed(attempt) =>
          if !bookingMatches { return RemedyRefused("booking_unavailable"), None, after; }
          answer := RemedyRefused("credit_restoration_pending");
          digest := Some(P.LossDigest(id, key, seen));
      }
    }

    method PostPaid(ghost s: P.Sys, ghost run: nat, id: Remedy.RemedyIdentity, digest: Digest, now: nat,
                    landed: bool, posted: Option<seq<string>>) returns (ghost after: P.Sys)
      requires Reflects(s, run, Some(P.Holding(id, digest))) && now < MAX_SAFE_INTEGER && (posted.Some? ==> landed)
      modifies this`ledger
      ensures after == P.RemedyOnLedger(s, run, landed, posted)
      ensures Reflects(after, run, if posted.Some? then Some(P.Remedied(id, digest, posted.value)) else None)
    {
      after := P.RemedyOnLedger(s, run, landed, posted);
      if landed { ledger := ledger + [P.PaidRemedy(Lower(id.hash), id.httpError, digest)]; }
    }

    method ClosePaid(ghost s: P.Sys, ghost run: nat, id: Remedy.RemedyIdentity, digest: Digest, now: nat,
                     refs: seq<string>, restorable: bool) returns (answer: RemedyAnswer, ghost after: P.Sys)
      requires Reflects(s, run, Some(P.Remedied(id, digest, refs))) && IsSha256(digest) && now < MAX_SAFE_INTEGER
      requires call.Some? && OpenForRefund(call.value)
      modifies this`call, this`attempts, this`obligation, this`effects
      ensures after == P.FinishPaidRun(s, run, restorable, now) && Reflects(after, run, None)
      ensures answer == RemedyCompleted ==> RefundReleasedToBuyer()
      ensures answer == if Remedy.Finish(old(Rows()), id, digest, refs, restorable, now).1.FinishCompleted? then RemedyCompleted
                        else RemedyRefused("receipt_update_pending")
    {
      after := P.FinishPaidRun(s, run, restorable, now);
      var kind := FinishRemedy(id, digest, refs, restorable, now);
      answer := if kind == Expiry.FinishCompleted then RemedyCompleted else RemedyRefused("receipt_update_pending");
    }

    /** The four steps of a remedy, each mirrored by the machine. An ended run only stutters. */
    method ResolveStepwise(ghost s: P.Sys, ghost asked: Remedy.RemedyIdentity, id: Remedy.RemedyIdentity, now: nat,
                           verified: bool, bookingMatches: bool, landed: bool, posted: Option<seq<string>>, restorable: bool)
      returns (answer: RemedyAnswer, ghost after: P.Sys)
      requires now < MAX_SAFE_INTEGER && (posted.Some? ==> landed)
      requires id == P.Asked(asked) && s == Requested(asked)
      modifies this
      ensures after == FromClaim(P.VerifyPayment(s, 0, verified), 0, now, bookingMatches, landed, posted, restorable)
      ensures Reflects(after, 0, None)
      ensures answer == RemedyCompleted ==> RefundReleasedToBuyer()
      ensures answer == RemedyOutcome(old(Rows()), id, now, verified, bookingMatches, posted, restorable)
    {
      after := P.VerifyPayment(s, 0, verified);
      if !P.ReadsAsPaid(Rows(), id) || !verified {
        EndedRemedyStutters(after, 0, now, bookingMatches, landed, posted, restorable);
        if AlreadyRemedied(Rows(), id) { return RemedyCompleted, after; }
        return RemedyRefused(
          if !P.RemedyAsked(Rows(), id) then "call_not_eligible"
          else if !P.ReadsAsPaid(Rows(), id) then "payment_identity_unavailable" else "payment_not_verified"), after;
      }
      answer, after := ResolveVerified(after, id, call.value.result.key, now, bookingMatches, landed, posted, restorable);
    }

    /** The steps of a remedy whose payment was verified. */
    method ResolveVerified(ghost s: P.Sys, id: Remedy.RemedyIdentity, key: AttemptKey, now: nat, bookingMatches: bool,
                           landed: bool, posted: Option<seq<string>>, restorable: bool)
      returns (answer: RemedyAnswer, ghost after: P.Sys)
      requires P.ReadsAsPaid(Rows(), id) && call.value.result.key == key
      requires Reflects(s, 0, Some(P.Verified(id, key, attempts[key])))
      requires now < MAX_SAFE_INTEGER && (posted.Some? ==> landed)
      modifies this
      ensures after == FromClaim(s, 0, now, bookingMatches, landed, posted, restorable) && Reflects(after, 0, None)
      ensures answer == RemedyCompleted ==> RefundReleasedToBuyer()
      ensures answer == VerifiedOutcome(old(Rows()), id, now, bookingMatches, posted, restorable)
    {
      var digest;
      answer, digest, after := HoldCall(s, 0, id, key, now, bookingMatches);
      if digest.None? { EndedRemedyStutters(after, 0, now, bookingMatches, landed, posted, restorable); return; }
      after := PostPaid(after, 0, id, digest.value, now, landed, posted);
      if posted.None? { EndedRemedyStutters(after, 0, now, bookingMatches, landed, posted, restorable); return; }
      answer, after := ClosePaid(after, 0, id, digest.value, now, posted.value, restorable);
    }

    /** One paid-result remedy whose awaits are not interleaved; `verified` is the chain's answer. */
    method ResolvePaidResultFailure(id: Remedy.RemedyIdentity, now: nat, verified: bool, bookingMatches: bool,
                                    landed: bool, posted: Option<seq<string>>, restorable: bool)
      returns (answer: RemedyAnswer)
      requires now < MAX_SAFE_INTEGER && (posted.Some? ==> landed)
      modifies this
      ensures Reflects(P.Run(old(Requested(id)),
                             [P.Verify(now, 0, verified), P.ClaimPaid(now, 0, bookingMatches),
                              P.PostRemedy(now, 0, landed, posted), P.FinishPaid(now, 0, restorable)]), 0, None)
      ensures answer == RemedyCompleted ==> RefundReleasedToBuyer()
      ensures answer == RemedyOutcome(old(Rows()), P.Asked(id), now, verified, bookingMatches, posted, restorable)
    {
      ghost var s, after := Requested(id), Requested(id);
      RemedyRun(s, 0, now, verified, bookingMatches, landed, posted, restorable);
      answer, after := ResolveStepwise(s, id, P.Asked(id), now, verified, bookingMatches, landed, posted, restorable);
    }
  }

  /** The steps of a recover run after it armed its successor. */
  function FromProve(s: P.Sys, run: nat, now: nat, blocks: seq<Block>, matches: bool, landed: bool,
                     posted: Option<seq<string>>, ok: bool): P.Sys
  {
    P.FinishRun(P.ReleaseOnLedger(P.ClaimRun(P.ProveUnused(s, run, blocks, matches), run, now), run, landed, posted),
                run, ok, now)
  }

  /** The steps of a remedy after it verified the payment. */
  function FromClaim(s: P.Sys, run: nat, now: nat, matches: bool, landed: bool, posted: Option<seq<string>>, ok: bool): P.Sys {
    P.FinishPaidRun(P.RemedyOnLedger(P.ClaimPaidRun(s, run, matches, now), run, landed, posted), run, ok, now)
  }

  /** A proved run goes on with the pinned digest exactly if it won its claim. */
  lemma PinnedRun(s: P.Sys, run: nat, chain: nat, attempt: nat, now: nat, proof: Expiry.ExpiryProofArgs)
    requires s.expiry == map[run := P.Proved(chain, attempt, proof)]
    ensures var (rows, pin) := Expiry.Claim(s.rows, proof, now);
            var after := P.ClaimRun(s, run, now);
            && after.rows == rows && after.ledger == s.ledger && after.timers == s.timers && after.next == s.next
            && after.expiry == (if pin.Some? then map[run := P.Pinned(chain, attempt, pin.value)] else map[])
            && (pin.Some? ==> rows.call.Some? && OpenForRefund(rows.call.value))
  {
    PinLeavesOpen(s.rows, proof, now);
  }

  lemma PinLeavesOpen(r: Rows, proof: Expiry.ExpiryProofArgs, now: nat)
    ensures var (rows, pin) := Expiry.Claim(r, proof, now);
            pin.Some? ==> rows.call.Some? && OpenForRefund(rows.call.value)
  {
  }

  /** A verified run that claims on the rows it saw holds the Call exactly if it won and its booking matches. */
  lemma ClaimedRun(s: P.Sys, run: nat, id: Remedy.RemedyIdentity, key: AttemptKey, now: nat, matches: bool)
    requires s.rows.call.Some? && s.rows.call.value.result.NeedsReconciliation? && s.rows.call.value.result.key == key
    requires key in s.rows.attempts && s.remedy == map[run := P.Verified(id, key, s.rows.attempts[key])]
    ensures var (rows, claim) := Remedy.Claim(s.rows, id, now);
            var after := P.ClaimPaidRun(s, run, matches, now);
            && !claim.AlreadyCompleted? && after.rows == rows && after.ledger == s.ledger
            && after.remedy == (if claim.Claimed? && matches
                                then map[run := P.Holding(id, P.LossDigest(id, key, s.rows.attempts[key]))] else map[])
            && (claim.Claimed? ==> rows.call.Some? && OpenForRefund(rows.call.value))
  {
  }

  /** The later steps of a remedy that has ended change nothing. */
  lemma EndedRemedyStutters(s: P.Sys, run: nat, now: nat, matches: bool, landed: bool, posted: Option<seq<string>>, ok: bool)
    requires run !in s.remedy
    ensures P.ClaimPaidRun(s, run, matches, now) == s && P.RemedyOnLedger(s, run, landed, posted) == s
    ensures P.FinishPaidRun(s, run, ok, now) == s
  {
  }

  /** The later steps of a recover run that has ended change nothing. */
  lemma EndedRunStutters(s: P.Sys, run: nat, now: nat, blocks: seq<Block>, matches: bool, landed: bool,
                         posted: Option<seq<string>>, ok: bool)
    requires run !in s.expiry
    ensures P.ProveUnused(s, run, blocks, matches) == s && P.ClaimRun(s, run, now) == s
    ensures P.ReleaseOnLedger(s, run, landed, posted) == s && P.FinishRun(s, run, ok, now) == s
  {
  }

  lemma ExpiryStepsAre(s: P.Sys, run: nat, now: nat, blocks: seq<Block>, matches: bool)
    requires now < MAX_SAFE_INTEGER
    ensures P.Step(s, P.Arm(now, run, now)) == P.ArmSuccessor(s, run, now, now)
    ensures P.Step(s, P.Prove(now, run, blocks, matches)) == P.ProveUnused(s, run, blocks, matches)
    ensures P.Step(s, P.ClaimUnused(now, run)) == P.ClaimRun(s, run, now)
  {
  }

  lemma ExpiryEndIs(s: P.Sys, run: nat, now: nat, landed: bool, posted: Option<seq<string>>, ok: bool)
    requires now < MAX_SAFE_INTEGER
    ensures P.Step(s, P.PostRelease(now, run, landed, posted)) == P.ReleaseOnLedger(s, run, landed, posted)
    ensures P.Step(s, P.FinishUnused(now, run, ok)) == P.FinishRun(s, run, ok, now)
  {
  }

  lemma RemedyStepsAre(s: P.Sys, run: nat, now: nat, verified: bool, matches: bool, landed: bool,
                       posted: Option<seq<string>>, ok: bool)
    requires now < MAX_SAFE_INTEGER
    ensures P.Step(s, P.Verify(now, run, verified)) == P.VerifyPayment(s, run, verified)
    ensures P.Step(s, P.ClaimPaid(now, run, matches)) == P.ClaimPaidRun(s, run, matches, now)
    ensures P.Step(s, P.PostRemedy(now, run, landed, posted)) == P.RemedyOnLedger(s, run, landed, posted)
    ensures P.Step(s, P.FinishPaid(now, run, ok)) == P.FinishPaidRun(s, run, ok, now)
  {
  }

  /** An uninterrupted recover run is these five events. */
  lemma RecoverRun(s: P.Sys, run: nat, now: nat, blocks: seq<Block>, matches: bool, landed: bool,
                   posted: Option<seq<string>>, ok: bool)
    requires now < MAX_SAFE_INTEGER
    ensures P.Run(s, [P.Arm(now, run, now), P.Prove(now, run, blocks, matches), P.ClaimUnused(now, run),
                      P.PostRelease(now, run, landed, posted), P.FinishUnused(now, run, ok)])
            == FromProve(P.ArmSuccessor(s, run, now, now), run, now, blocks, matches, landed, posted, ok)
  {
    RunFive(s, P.Arm(now, run, now), P.Prove(now, run, blocks, matches), P.ClaimUnused(now, run),
            P.PostRelease(now, run, landed, posted), P.FinishUnused(now, run, ok));
    var a := P.ArmSuccessor(s, run, now, now);
    var b := P.ProveUnused(a, run, blocks, matches);
    var c := P.ClaimRun(b, run, now);
    ExpiryStepsAre(s, run, now, blocks, matches);
    ExpiryStepsAre(a, run, now, blocks, matches);
    ExpiryStepsAre(b, run, now, blocks, matches);
    ExpiryEndIs(c, run, now, landed, posted, ok);
    ExpiryEndIs(P.ReleaseOnLedger(c, run, landed, posted), run, now, landed, posted, ok);
  }

  /** An uninterrupted remedy is these four events. */
  lemma RemedyRun(s: P.Sys, run: nat, now: nat, verified: bool, matches: bool, landed: bool,
                  posted: Option<seq<string>>, ok: bool)
    requires now < MAX_SAFE_INTEGER
    ensures P.Run(s, [P.Verify(now, run, verified), P.ClaimPaid(now, run, matches),
                      P.PostRemedy(now, run, landed, posted), P.FinishPaid(now, run, ok)])
            == FromClaim(P.VerifyPayment(s, run, verified), run, now, matches, landed, posted, ok)
  {
    RunFour(s, P.Verify(now, run, verified), P.ClaimPaid(now, run, matches),
            P.PostRemedy(now, run, landed, posted), P.FinishPaid(now, run, ok));
    var a := P.VerifyPayment(s, run, verified);
    var b := P.ClaimPaidRun(a, run, matches, now);
    RemedyStepsAre(s, run, now, verified, matches, landed, posted, ok);
    RemedyStepsAre(a, run, now, verified, matches, landed, posted, ok);
    RemedyStepsAre(b, run, now, verified, matches, landed, posted, ok);
    RemedyStepsAre(P.RemedyOnLedger(b, run, landed, posted), run, now, verified, matches, landed, posted, ok);
  }

  lemma RunFive(s: P.Sys, a: P.Event, b: P.Event, c: P.Event, d: P.Event, e: P.Event)
    ensures P.Run(s, [a, b, c, d, e]) == P.Step(P.Step(P.Step(P.Step(P.Step(s, a), b), c), d), e)
  {
    RunFour(s, a, b, c, d);
    assert [a, b, c, d, e][..4] == [a, b, c, d];
  }

  lemma RunFour(s: P.Sys, a: P.Event, b: P.Event, c: P.Event, d: P.Event)
    ensures P.Run(s, [a, b, c, d]) == P.Step(P.Step(P.Step(P.Step(s, a), b), c), d)
  {
    assert [a, b, c, d][..3] == [a, b, c];
    assert [a, b, c][..2] == [a, b];
    assert [a, b][..1] == [a];
    assert P.Run(s, [a]) == P.Step(s, a);
    assert P.Run(s, [a, b]) == P.Step(P.Run(s, [a]), b);
    assert P.Run(s, [a, b, c]) == P.Step(P.Run(s, [a, b]), c);
  }
}
