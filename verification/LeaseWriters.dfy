/**
 The other writers of a Call's reconciliation lease, financial state and payment
 attempt that can interleave with a refund: the paid-response watchdog, the
 reconciliation sweep, the restore quarantine, the ordinary release and
 settlement of the Call, and late payment observations.
 */
module LeaseWriters {
  import opened Wrappers
  import opened LeaseOwners
  import opened RefundRows
  import opened ExpiryMutations

  // ---- paid-response watchdog ----

  /** A permanent HTTP-error refund lease whose transaction this attempt retained. */
  predicate ExactHttpErrorRemedy(r: Rows) {
    && r.call.Some?
    && var c := r.call.value;
    && c.recon.Some? && c.recon.value.leaseOwner.Some?
    && var o := c.recon.value.leaseOwner.value;
    && o.PaidResultLoss? && o.httpError && IsTransactionHash(o.hash) && Lower(o.hash) == o.hash
    && c.result.NeedsReconciliation?
    && c.result.key in r.attempts
    && var a := r.attempts[c.result.key];
    && a.forCall && a.forInput
    && a.response.status.Some? && 300 <= a.response.status.value <= 599
    && o.hash in a.chainHashes
  }

  /** The watchdog step the current lease already reached, or -1. */
  function OwnStep(r: Rows): int
    requires r.call.Some?
  {
    var c := r.call.value;
    if ExactHttpErrorRemedy(r) then AttemptCount(c) - 1
    else if c.recon.Some? && c.recon.value.leaseOwner.Some? && c.recon.value.leaseOwner.value.PaidResponse?
    then c.recon.value.leaseOwner.value.step
    else -1
  }

  predicate LeaseBlocksWatchdog(r: Rows, now: nat)
    requires r.call.Some?
  {
    && !ExactHttpErrorRemedy(r)
    && OwnStep(r) < 0
    && r.call.value.recon.Some?
    && r.call.value.recon.value.leaseOwner.Some?
    && LeaseLive(r.call.value.recon.value, now)
  }

  function WatchdogLease(r: Rows, step: nat, now: nat): Reconciliation
    requires r.call.Some? && step <= 4
  {
    var exact := ExactHttpErrorRemedy(r);
    var nextAt := now + 60000 * Pow2(step);
    Reconciliation(
      if step == 4 then ManualReview else Automatic,
      if exact then RefundPending else RecoveryFailed,
      step + 1, nextAt,
      if exact then r.call.value.recon.value.leaseOwner else Some(PaidResponse(step)),
      Some(if exact then MAX_SAFE_INTEGER else nextAt + 60000))
  }

  function BeginResponse(r: Rows, step: nat, now: nat): Rows {
    if step > 4 || r.call.None? || !(r.call.value.state.Pending? || r.call.value.state.ReconciliationRequired?)
       || HeldForUnknownSettlement(r.call.value) || OwnStep(r) >= step then r
    else if LeaseBlocksWatchdog(r, now) then
      var recon := r.call.value.recon.value;
      if recon.leaseOwner.value.Sweep? then
        r.(call := Some(r.call.value.(recon := Some(recon.(nextAttemptAt := recon.leaseExpiresAt.value + 1)))))
      else r
    else r.(call := Some(r.call.value.(recon := Some(WatchdogLease(r, step, now)))))
  }

  // ---- reconciliation sweep and refused-call refund ----

  datatype SweepOutcome = Success | Terminal | StillRequired | SweepError

  predicate SweepState(c: Call) {
    || c.state.ReconciliationRequired?
    || ((c.state.Refused? || c.state.Cancelled?) && c.recon.Some? && c.recon.value.reason == RefundPending)
  }

  predicate Claimable(c: Call, now: nat) {
    && SweepState(c)
    && c.recon.Some?
    && c.recon.value.disposition == Automatic
    && c.recon.value.nextAttemptAt <= now
    && (c.recon.value.leaseOwner.None? || !LeaseLive(c.recon.value, now))
  }

  function SweepClaim(r: Rows, owner: LeaseOwner, now: nat): Rows {
    if r.call.None? || !Claimable(r.call.value, now) then r
    else r.(call := Some(r.call.value.(recon := Some(r.call.value.recon.value.(
                           leaseOwner := Some(owner), leaseExpiresAt := Some(now + 60000))), updatedAt := now)))
  }

  function Backoff(attemptCount: nat): nat {
    if attemptCount <= 1 then 60000 else if attemptCount == 2 then 300000
    else if attemptCount == 3 then 900000 else 3600000
  }

  /** The reconciliation a sweep leaves behind; none when it is done. */
  function SweepDecision(c: Call, now: nat, outcome: SweepOutcome, reason: Option<Reason>): Option<Reconciliation>
    requires c.recon.Some?
  {
    var current := c.recon.value;
    var preClaim := (c.state.Refused? || c.state.Cancelled?) && current.reason == RefundPending;
    var finished := (outcome.Success? || outcome.Terminal?) && (preClaim ==> c.financial == Released);
    if finished then None
    else
      var count := current.attemptCount + 1;
      var why := if preClaim then RefundPending
                 else if outcome.SweepError? then RecoveryFailed
                 else if reason.Some? then reason.value else current.reason;
      Some(Reconciliation(if count >= 5 then ManualReview else Automatic, why, count, now + Backoff(count), None, None))
  }

  function SweepFinish(r: Rows, owner: LeaseOwner, now: nat, outcome: SweepOutcome, reason: Option<Reason>): Rows {
    if r.call.None? || !SweepState(r.call.value) || !LeasedTo(r.call.value, owner)
       || r.call.value.recon.value.disposition != Automatic || !LeaseLive(r.call.value.recon.value, now) then r
    else r.(call := Some(r.call.value.(recon := SweepDecision(r.call.value, now, outcome, reason), updatedAt := now)))
  }

  function InitializeReconciliation(r: Rows, now: nat): Rows {
    if r.call.None? || !r.call.value.state.ReconciliationRequired? || r.call.value.recon.Some? then r
    else r.(call := Some(r.call.value.(recon := Some(Reconciliation(Automatic, RecoveryFailed, 0, now, None, None)),
                                        updatedAt := now)))
  }

  // ---- financial transitions of the Call ----

  function MarkOutcomeUnknown(r: Rows, now: nat): Rows {
    if r.call.None? || r.call.value.reservationRefs.None?
       || !(r.call.value.financial == Reserved || r.call.value.financial == MaybeSubmitted) then r
    else r.(call := Some(r.call.value.(financial := OutcomeUnknown, updatedAt := now)),
            obligation := if r.obligation.Some? then Some(r.obligation.value.(state := Held)) else None)
  }

  predicate EligibleQuarantine(c: Call) {
    HeldForUnknownSettlement(c) && c.result.NeedsReconciliation?
  }

  predicate Quarantined(c: Call) {
    && EligibleQuarantine(c) && c.dispatchState == DispatchReconciliation
    && c.recon.value.leaseOwner.None? && c.recon.value.leaseExpiresAt.None?
    && c.financial != Reserved && c.financial != MaybeSubmitted
  }

  /** The restore quarantine; `key` is the attempt the restored control names. Held money without its refs throws. */
  function Quarantine(r: Rows, key: AttemptKey, now: nat): Rows {
    if r.call.None? then r else
      var c := r.call.value;
      if !(c.state.Pending? && c.result.PendingResult?) && !EligibleQuarantine(c) then r
      else if Quarantined(c) then r
      else if (c.financial == Reserved || c.financial == MaybeSubmitted) && c.reservationRefs.None? then r
      else MarkOutcomeUnknown(r.(call := Some(c.(
        state := ReconciliationRequired, dispatchState := DispatchReconciliation,
        result := if c.result.NeedsReconciliation? then c.result else NeedsReconciliation(key, None),
        recon := Some(Reconciliation(ManualReview, UnknownSettlement, AttemptCount(c), now, None, None)),
        updatedAt := now))), now)
  }

  function FinalizeRelease(r: Rows, refs: seq<string>, unusedProof: bool, restorable: bool, now: nat): Rows {
    if r.call.None? || HeldForUnknownSettlement(r.call.value) || |refs| != RefundEntries(r.call.value) then r
    else
      var c := r.call.value;
      var releasable := c.financial == Reserved
                        || (unusedProof && (c.financial == MaybeSubmitted || c.financial == OutcomeUnknown));
      if !releasable || (c.promoGrants.Some? && !restorable) then r
      else
        var paid := RestoreCredit(r);
        paid.(call := Some(c.(financial := Released, releaseRefs := Some(refs), updatedAt := now)),
              obligation := if r.obligation.Some? then Some(r.obligation.value.(state := Reversed)) else None,
              effects := paid.effects + (if r.obligation.Some? then [ObligationClosed(Reversed)] else []))
  }

  predicate RefundLeased(c: Call) {
    c.recon.Some? && c.recon.value.leaseOwner.Some? && IsRefundOwner(c.recon.value.leaseOwner.value)
  }

  function FinalizeSettlement(r: Rows, refs: seq<string>, now: nat): Rows {
    if r.call.None? || |refs| != RefundEntries(r.call.value) || RefundLeased(r.call.value)
       || !(r.call.value.financial == MaybeSubmitted || r.call.value.financial == OutcomeUnknown) then r
    else
      r.(call := Some(r.call.value.(financial := FinanciallySettled, settlementRefs := Some(refs), updatedAt := now)),
         obligation := if r.obligation.Some? then Some(Obligation(ObligationSettled, Some(refs[1]))) else None,
         effects := r.effects + (if r.obligation.Some? then [ObligationClosed(ObligationSettled)] else []))
  }

  /**
   A recovery projection that resets a stopped Call to pending, clearing its result and
   its reconciliation. It refuses the manual hold and asks for no lease owner; both its
   callers reach it only after the buyer's money was released, or when none was reserved.
   */
  function ResetToPending(r: Rows, now: nat): Rows {
    if r.call.None? || !r.call.value.state.ReconciliationRequired? || HeldForUnknownSettlement(r.call.value)
       || !(r.call.value.financial == Released || r.call.value.financial == NoFinancial) then r
    else r.(call := Some(r.call.value.(state := Pending, result := NoResult, dispatchState := DispatchOpen,
                                       evidenceHash := None, recon := None, updatedAt := now)))
  }

  /** A worker records the Call as stopped for an attempt, from pending or again, whoever holds the lease. */
  function RecordStop(r: Rows, key: AttemptKey, receipt: Option<Receipt>, now: nat): Rows {
    if r.call.None? || HeldForUnknownSettlement(r.call.value)
       || !(r.call.value.state.Pending? || r.call.value.state.ReconciliationRequired?) then r
    else
      InitializeReconciliation(
        r.(call := Some(r.call.value.(state := ReconciliationRequired, result := NeedsReconciliation(key, receipt),
                                      dispatchState := DispatchReconciliation, updatedAt := now))), now)
  }

  // ---- payment attempts ----

  /** No attempt of the Call was signed with this nonce. */
  predicate UnusedNonce(r: Rows, nonce: Option<string>) {
    nonce.Some? ==> forall k :: k in r.attempts ==> r.attempts[k].nonce != nonce
  }

  /** A new attempt is signed with its own nonce. */
  function AddAttempt(r: Rows, key: AttemptKey, a: Attempt): Rows {
    if key in r.attempts || !UnusedNonce(r, a.nonce) then r else r.(attempts := r.attempts[key := a])
  }

  /**
   Any change the payment observers may make to one attempt. Identity, nonce and
   expiry never change; settlement is written once, or reconciled while no
   reconciliation evidence is stored; stored evidence is never replaced.
   */
  predicate ObservationOf(a: Attempt, b: Attempt) {
    && b.forCall == a.forCall && b.terms == a.terms && b.identityDigest == a.identityDigest && b.nonce == a.nonce
    && b.payer == a.payer && b.expiresAt == a.expiresAt && b.reservationRef == a.reservationRef
    && (a.settlement.Some? && a.evidence.Some? ==> b.settlement == a.settlement)
    && (a.evidence.Some? ==> b.evidence == a.evidence)
  }

  function Observe(r: Rows, key: AttemptKey, b: Attempt): Rows {
    if key in r.attempts && ObservationOf(r.attempts[key], b) then r.(attempts := r.attempts[key := b]) else r
  }

  /** The first settlement observation closes the spend reservation as settled. */
  function SettleSpend(r: Rows, evidence: Digest): Rows {
    if r.spend.Some? && r.spend.value.state == Liability then
      r.(spend := Some(r.spend.value.(state := SpendSettled, evidence := Some(evidence))),
         effects := r.effects + [SpendClosed(SpendSettled)])
    else r
  }
}
