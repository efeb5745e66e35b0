/**
 The stored rows that refund recovery reads and writes for one Call: the Call,
 its payment attempts, its Provider obligation and its spend reservation.
 */
module RefundRows {
  import opened Wrappers
  import opened LeaseOwners

  datatype AttemptKey = AttemptKey(attemptRef: string, effectGeneration: nat)

  /** One safe block observed by one RPC. */
  datatype Block = Block(hash: string, number: nat, timestamp: nat)

  /** The response facts an HTTP-error remedy binds into its evidence. */
  datatype ResponseFacts = ResponseFacts(
    status: Option<int>, transportObservation: Option<string>, transportRequest: Option<string>,
    paymentObservation: Option<string>, quarantinedResponse: Option<string>)

  /**
   Canonical digests are taken to be injective, so a digest is its material.
   `Malformed` is any text that fails the `sha256:` format test.
   */
  datatype Digest =
    | ExpiryProof(key: AttemptKey, nonce: string, blocks: seq<Block>)
    | PaidLoss(key: AttemptKey, hash: string, failure: Option<ResponseFacts>)
    | OtherEvidence(text: string)
    | Malformed(text: string)

  datatype Settlement = SettlementUnknown | Settled | NotSettled
  datatype AttemptState = Prepared | PossiblySubmitted | Observed | AttemptReconciliation

  /** The payment an attempt was signed for, and a reservation was made for. */
  datatype PaymentTerms = PaymentTerms(
    reservationRef: Option<string>, custodyRef: Option<string>, dispatchRef: string,
    authorizationDigest: Option<string>, unsignedMaterialDigest: Option<string>, signingKey: Option<string>,
    amountUnits: string, payTo: string)

  datatype Attempt = Attempt(
    forCall: bool, forInput: bool, // dispatchRef, then toolRef and inputDigest, match the Call
    terms: PaymentTerms, admittedToken: bool, // network, asset and exponent are those of an admitted token
    identityDigest: Option<string>, nonce: Option<string>, payer: Option<string>,
    expiresAt: Option<nat>, reservationRef: Option<string>, submissionStartedAt: Option<nat>,
    state: AttemptState, settlement: Option<Settlement>,
    response: ResponseFacts, paymentResponse: Option<string>, quarantinedOutput: Option<string>,
    chainHashes: set<string>, // lower-case hashes of the "chain:" evidence references
    evidence: Option<Digest>, unsignedMaterial: Option<string>)

  datatype Disposition = Automatic | ManualReview
  datatype Reason =
    | UnknownSettlement | PendingAccounting | RefundPending
    | CustodyCap | RecoveryFailed | AuthorizationExpired

  datatype Reconciliation = Reconciliation(
    disposition: Disposition, reason: Reason, attemptCount: nat, nextAttemptAt: nat,
    leaseOwner: Option<LeaseOwner>, leaseExpiresAt: Option<nat>)

  datatype CallState = Pending | Completed | Refused | Cancelled | ReconciliationRequired
  datatype DispatchState = DispatchOpen | DispatchFailed | DispatchReconciliation
  datatype FinancialState =
    | NoFinancial | ReservationPending | Reserved | MaybeSubmitted | OutcomeUnknown | Released | FinanciallySettled

  datatype RefusalCode = SourceUnavailable | ProviderRefused | ResultInvalid | OtherRefusal
  datatype ReceiptState = ReceiptOpen | ReceiptSettled | ReceiptRefunded
  datatype RefundState = RefundUnknown | RefundReleased
  datatype LossState = NoLoss | LossUnknown | ProviderHttpError

  datatype Receipt = Receipt(
    accountAud: bool, state: ReceiptState, refundState: RefundState, lossState: LossState,
    evidenceHash: Digest, settlementRef: Option<string>, accountingRefs: Option<seq<string>>,
    transactionRef: Option<string>)

  datatype CallResult =
    | NoResult
    | PendingResult
    | NeedsReconciliation(key: AttemptKey, receipt: Option<Receipt>)
    | RefusedResult(code: RefusalCode, receipt: Option<Receipt>)
    | CompletedResult

  datatype Call = Call(
    state: CallState, dispatchState: DispatchState, financial: FinancialState, result: CallResult,
    reservationRefs: Option<seq<string>>, releaseRefs: Option<seq<string>>, settlementRefs: Option<seq<string>>,
    recon: Option<Reconciliation>, evidenceHash: Option<Digest>,
    promoGrants: Option<nat>, // number of grants in the promotional allocation
    toolSnapshotMatches: bool, updatedAt: nat)

  datatype ObligationState = Accrued | Held | ObligationSettled | Reversed
  datatype Obligation = Obligation(state: ObligationState, settlementRef: Option<string>)

  datatype SpendState = Liability | SpendSettled | SpendUnused
  datatype Spend = Spend(
    key: AttemptKey, terms: PaymentTerms, identityDigest: Option<string>, state: SpendState, evidence: Option<Digest>)

  /** The reservation was made for the payment of this attempt; its payee is stored in lower case. */
  predicate ReservedFor(s: Spend, a: Attempt) {
    && s.terms.reservationRef == a.terms.reservationRef
    && s.terms.custodyRef == a.terms.custodyRef
    && s.terms.dispatchRef == a.terms.dispatchRef
    && s.terms.authorizationDigest == a.terms.authorizationDigest
    && s.identityDigest == a.identityDigest
    && s.terms.unsignedMaterialDigest == a.terms.unsignedMaterialDigest
    && s.terms.signingKey == a.terms.signingKey
    && s.terms.amountUnits == a.terms.amountUnits
    && s.terms.payTo == Lower(a.terms.payTo)
  }

  /** Financial facts a mutation commits outside these rows, in commit order. */
  datatype Effect =
    | CreditRestored
    | ObligationClosed(obligation: ObligationState)
    | SpendClosed(spend: SpendState)

  datatype Rows = Rows(
    call: Option<Call>, attempts: map<AttemptKey, Attempt>,
    obligation: Option<Obligation>, spend: Option<Spend>, effects: seq<Effect>)

  predicate IsSha256(d: Digest) { !d.Malformed? }

  /** The manual hold that no automatic recovery may disturb. */
  predicate HeldForUnknownSettlement(c: Call) {
    && c.state.ReconciliationRequired?
    && c.recon.Some?
    && c.recon.value.disposition == ManualReview
    && c.recon.value.reason == UnknownSettlement
  }

  /** A stopped Call whose buyer money is still held and whose receipt is in Account AUD. */
  predicate OpenForRefund(c: Call) {
    && c.state.ReconciliationRequired?
    && c.financial == OutcomeUnknown
    && c.result.NeedsReconciliation?
    && c.result.receipt.Some?
    && c.result.receipt.value.accountAud
  }

  predicate LeaseLive(r: Reconciliation, now: nat) {
    r.leaseExpiresAt.Some? && r.leaseExpiresAt.value > now
  }

  predicate LeasedTo(c: Call, o: LeaseOwner) {
    c.recon.Some? && c.recon.value.leaseOwner == Some(o)
  }

  /** Whether another owner holds a lease that has not run out. */
  predicate LeasedToOther(c: Call, o: LeaseOwner, now: nat) {
    && c.recon.Some?
    && c.recon.value.leaseOwner.Some?
    && c.recon.value.leaseOwner.value != o
    && LeaseLive(c.recon.value, now)
  }

  predicate ReservedBy(c: Call, a: Attempt) {
    a.reservationRef.Some? && c.reservationRefs.Some? && a.reservationRef.value in c.reservationRefs.value
  }

  function AttemptCount(c: Call): nat {
    if c.recon.Some? then c.recon.value.attemptCount else 0
  }

  /** A refund posts one buyer and one provider entry, then one per promotional grant. */
  function RefundEntries(c: Call): nat {
    2 + (if c.promoGrants.Some? then c.promoGrants.value else 0)
  }

  datatype EffectKind = CreditKind | ObligationKind | SpendKind

  function KindOf(e: Effect): EffectKind {
    match e
    case CreditRestored => CreditKind
    case ObligationClosed(_) => ObligationKind
    case SpendClosed(_) => SpendKind
  }

  /** How often an effect of one kind was committed. */
  function Count(effects: seq<Effect>, kind: EffectKind): nat {
    if effects == [] then 0
    else Count(effects[..|effects| - 1], kind) + (if KindOf(effects[|effects| - 1]) == kind then 1 else 0)
  }

  lemma CountOne(effects: seq<Effect>, e: Effect, kind: EffectKind)
    ensures Count(effects + [e], kind) == Count(effects, kind) + (if KindOf(e) == kind then 1 else 0)
  {
    assert (effects + [e])[..|effects|] == effects;
  }
}
