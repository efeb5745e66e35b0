/** The other writers of a Call's lease and money column by column: when each one writes, and what. */
module WriterConditions {
  import opened Wrappers
  import opened LeaseOwners
  import opened RefundRows
  import opened LeaseWriters

  /** The Call carries the manual hold for a settlement that nobody could establish. */
  predicate Held(c: Call) {
    && c.state.ReconciliationRequired? && c.recon.Some?
    && c.recon.value.disposition.ManualReview? && c.recon.value.reason.UnknownSettlement?
  }

  predicate RefundOwned(c: Call) {
    && c.recon.Some? && c.recon.value.leaseOwner.Some?
    && (c.recon.value.leaseOwner.value.ExpiredUnused? || c.recon.value.leaseOwner.value.PaidResultLoss?)
  }

  function Entries(c: Call): nat { 2 + (if c.promoGrants.Some? then c.promoGrants.value else 0) }

  /**
   The ordinary release: of money only reserved, or of an uncertain payment proven unused, on a Call
   without the manual hold, with one ref for each entry. All refs are the buyer's.
   */
  lemma ReleaseIff(r: Rows, refs: seq<string>, unusedProof: bool, ok: bool, now: nat)
    ensures var after := FinalizeRelease(r, refs, unusedProof, ok, now);
            var releases := && r.call.Some? && !Held(r.call.value) && |refs| == Entries(r.call.value)
                            && (r.call.value.promoGrants.Some? ==> ok)
                            && (r.call.value.financial.Reserved?
                                || (unusedProof && (r.call.value.financial.MaybeSubmitted? || r.call.value.financial.OutcomeUnknown?)));
            && (!releases ==> after == r)
            && (releases ==>
                  && after.call == Some(r.call.value.(financial := Released, releaseRefs := Some(refs), updatedAt := now))
                  && (r.obligation.None? ==> after.obligation.None?)
                  && (r.obligation.Some? ==> after.obligation == Some(Obligation(Reversed, r.obligation.value.settlementRef)))
                  && after.attempts == r.attempts && after.spend == r.spend)
  {
  }

  /** The ordinary settlement: of a payment sent or uncertain, unless a refund holds the Call. The second ref is the Provider's. */
  lemma SettlementIff(r: Rows, refs: seq<string>, now: nat)
    ensures var after := FinalizeSettlement(r, refs, now);
            var settles := && r.call.Some? && |refs| == Entries(r.call.value) && !RefundOwned(r.call.value)
                           && (r.call.value.financial.MaybeSubmitted? || r.call.value.financial.OutcomeUnknown?);
            && (!settles ==> after == r)
            && (settles ==>
                  && |refs| >= 2
                  && after.call == Some(r.call.value.(financial := FinanciallySettled, settlementRefs := Some(refs), updatedAt := now))
                  && (r.obligation.None? ==> after.obligation.None?)
                  && (r.obligation.Some? ==> after.obligation == Some(Obligation(ObligationSettled, Some(refs[1]))))
                  && after.attempts == r.attempts && after.spend == r.spend)
  {
  }

  /** A reset to pending: of a stopped Call without the manual hold, once its money was released or when none was reserved. */
  lemma ResetIff(r: Rows, now: nat)
    ensures var after := ResetToPending(r, now);
            && (after != r ==>
                  && r.call.Some? && r.call.value.state.ReconciliationRequired? && !Held(r.call.value)
                  && r.call.value.financial in {Released, NoFinancial})
            && (r.call.Some? && r.call.value.state.ReconciliationRequired? && !Held(r.call.value)
                && r.call.value.financial in {Released, NoFinancial} ==>
                  && after == r.(call := after.call) && after.call.Some?
                  && var d := after.call.value;
                  && d.state.Pending? && d.result.NoResult? && d.dispatchState.DispatchOpen? && d.evidenceHash.None? && d.recon.None?
                  && d == r.call.value.(state := d.state, result := d.result, dispatchState := d.dispatchState,
                                        evidenceHash := None, recon := None, updatedAt := now))
  {
  }

  /** The restore quarantine puts a pending Call, or one held already, under the manual hold without a lease. */
  lemma QuarantineHolds(r: Rows, key: AttemptKey, now: nat)
    requires r.call.Some?
    ensures var c, after := r.call.value, Quarantine(r, key, now);
            var stops := c.state.Pending? && c.result.PendingResult?;
            var again := Held(c) && c.result.NeedsReconciliation?;
            var throws := c.financial in {Reserved, MaybeSubmitted} && c.reservationRefs.None?;
            && ((!stops && !again) || throws ==> after == r)
            && ((stops || again) && !throws ==> after.call.Some? && after.call.value.recon.Some?)
            && ((stops || again) && !throws ==>
                  && after.call.Some? && Held(after.call.value) && after.call.value.result.NeedsReconciliation?
                  && after.call.value.dispatchState.DispatchReconciliation? && after.call.value.recon.value.leaseOwner.None?
                  && after.call.value.financial == (if c.financial in {Reserved, MaybeSubmitted}
                                                    then OutcomeUnknown else c.financial)
                  && (!again ==> after.call.value.result.key == key && after.call.value.state.ReconciliationRequired?)
                  && (again ==> after.call.value.result == c.result)
                  && after.call.value.releaseRefs == c.releaseRefs && after.call.value.settlementRefs == c.settlementRefs
                  && after.attempts == r.attempts && after.spend == r.spend)
  {
  }

  /** The sweep's backoff: one, five, fifteen minutes, and an hour from then on. */
  function BackoffMinutes(count: nat): nat {
    match count case 0 => 1 case 1 => 1 case 2 => 5 case 3 => 15 case _ => 60
  }

  /** A sweep decides a Call whose live lease is its own and automatic: done, or one more try until the fifth asks for a person. */
  lemma SweepDecides(r: Rows, owner: LeaseOwner, now: nat, outcome: SweepOutcome, reason: Option<Reason>)
    ensures var after := SweepFinish(r, owner, now, outcome, reason);
            && (after != r ==>
                  && r.call.Some? && r.call.value.recon.Some? && after.call.Some? && after == r.(call := after.call)
                  && after.call.value == r.call.value.(recon := after.call.value.recon, updatedAt := now)
                  && var c, was, left := r.call.value, r.call.value.recon.value, after.call.value.recon;
                  var refused := (c.state.Refused? || c.state.Cancelled?) && was.reason.RefundPending?;
                  && was.leaseOwner == Some(owner) && was.disposition.Automatic?
                  && was.leaseExpiresAt.Some? && was.leaseExpiresAt.value > now
                  && (left.None? <==> outcome in {Success, Terminal} && (refused ==> c.financial.Released?))
                  && (left.Some? ==>
                        && left.value.leaseOwner.None? && left.value.leaseExpiresAt.None?
                        && left.value.attemptCount == was.attemptCount + 1
                        && left.value.nextAttemptAt == now + 60000 * BackoffMinutes(was.attemptCount + 1)
                        && (left.value.disposition.ManualReview? <==> was.attemptCount >= 4)
                        && (refused ==> left.value.reason.RefundPending?)
                        && (!refused && outcome.SweepError? ==> left.value.reason.RecoveryFailed?)
                        && (!refused && !outcome.SweepError? ==>
                              left.value.reason == if reason.Some? then reason.value else was.reason)))
  {
  }

  /** A sweep claims, for one minute, a due automatic Call that it may sweep and nobody holds. */
  lemma SweepClaimIff(r: Rows, owner: LeaseOwner, now: nat)
    ensures var after := SweepClaim(r, owner, now);
            var due := && r.call.Some? && r.call.value.recon.Some?
                       && (r.call.value.state.ReconciliationRequired?
                           || (r.call.value.state in {Refused, Cancelled} && r.call.value.recon.value.reason.RefundPending?))
                       && r.call.value.recon.value.disposition.Automatic? && r.call.value.recon.value.nextAttemptAt <= now
                       && !(r.call.value.recon.value.leaseOwner.Some? && r.call.value.recon.value.leaseExpiresAt.Some?
                            && r.call.value.recon.value.leaseExpiresAt.value > now);
            && (!due ==> after == r)
            && (due ==> after == r.(call := Some(r.call.value.(recon := Some(r.call.value.recon.value.(
                          leaseOwner := Some(owner), leaseExpiresAt := Some(now + 60000))), updatedAt := now))))
  {
  }

  /** The lease a watchdog step takes: the exact retained refund's own, kept for ever, or its own until a minute after it is due. */
  lemma WatchdogTakes(r: Rows, step: nat, now: nat)
    requires r.call.Some? && BeginResponse(r, step, now) != r
    ensures var c, after := r.call.value, BeginResponse(r, step, now);
            && step <= 4 && c.state in {Pending, ReconciliationRequired} && !Held(c)
            && after == r.(call := after.call) && after.call.Some?
            && after.call.value == c.(recon := after.call.value.recon) && after.call.value.recon.Some?
            && var d, due := after.call.value.recon.value, now + 60000 * Pow2(step);
            && ((d.attemptCount == step + 1 && d.nextAttemptAt == due && (d.disposition.ManualReview? <==> step == 4)
                 && (if ExactHttpErrorRemedy(r) then
                       d.reason.RefundPending? && d.leaseOwner == c.recon.value.leaseOwner && d.leaseExpiresAt == Some(9007199254740991)
                     else
                       d.reason.RecoveryFailed? && d.leaseOwner == Some(PaidResponse(step)) && d.leaseExpiresAt == Some(due + 60000)))
                || (c.recon.Some? && c.recon.value.leaseOwner.Some? && c.recon.value.leaseOwner.value.Sweep?
                    && c.recon.value.leaseExpiresAt.Some? && c.recon.value.leaseExpiresAt.value > now
                    && d == c.recon.value.(nextAttemptAt := c.recon.value.leaseExpiresAt.value + 1)))
  {
  }
}
