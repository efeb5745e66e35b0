/**
 Refund recovery as a state machine. Each mutation is one atomic step; between any
 two steps of a run every other run, the clock and the other lease writers may
 move, and any run may crash. A run of the system is any sequence of events.
 */
module RefundProtocol {
  import opened Wrappers
  import opened LeaseOwners
  import opened RefundRows
  import Expiry = ExpiryMutations
  import Remedy = RemedyMutations
  import Writers = LeaseWriters

  /** Where one `recover` action stands, with what it remembers. */
  datatype ExpiryRun =
    | Entered(chain: nat, attempt: nat)
    | Armed(chain: nat, attempt: nat)
    | Proved(chain: nat, attempt: nat, proof: Expiry.ExpiryProofArgs)
    | Pinned(chain: nat, attempt: nat, digest: Digest)
    | Booked(chain: nat, attempt: nat, digest: Digest, refs: seq<string>)

  /** Where one `resolvePaidResultFailure` action stands. */
  datatype RemedyRun =
    | Requested(id: Remedy.RemedyIdentity)
    | Verified(id: Remedy.RemedyIdentity, key: AttemptKey, seen: Attempt)
    | Holding(id: Remedy.RemedyIdentity, digest: Digest)
    | Remedied(id: Remedy.RemedyIdentity, digest: Digest, refs: seq<string>)

  /** A scheduled `recover` run; the scheduler starts it at most once. */
  datatype Timer = Timer(chain: nat, attempt: nat, at: nat)

  /** Ledger commands that landed, whether or not the action saw the answer. */
  datatype Posting =
    | Release(chain: nat, attempt: nat, digest: Digest)
    | PaidRemedy(hash: string, httpError: bool, digest: Digest)

  /** Who won a refund claim, and what the claim pinned. */
  datatype Claimant =
    | ByExpiry(key: AttemptKey, nonce: string, digest: Digest)
    | ByRemedy(hash: string, httpError: bool)

  datatype Sys = Sys(
    rows: Rows, expiry: map<nat, ExpiryRun>, remedy: map<nat, RemedyRun>, timers: map<nat, Timer>, next: nat,
    ledger: seq<Posting>, claims: seq<Claimant>, starts: map<nat, seq<nat>>, armed: set<(nat, nat)>)

  datatype Writer =
    | Watchdog(step: nat)
    | SweepClaims(owner: LeaseOwner)
    | SweepFinishes(owner: LeaseOwner, outcome: Writers.SweepOutcome, reason: Option<Reason>)
    | Initialize
    | MarkUnknown
    | QuarantineCall(key: AttemptKey)
    | ReleaseCall(refs: seq<string>, unusedProof: bool, restorable: bool)
    | SettleCall(refs: seq<string>)
    | ObserveAttempt(key: AttemptKey, after: Attempt)
    | SettleReservation(evidence: Digest)
    | ResetCall
    | StopFor(key: AttemptKey, receipt: Option<Receipt>)
    | PrepareAttempt(key: AttemptKey, attempt: Attempt)

  datatype Event =
    | StopCall(now: nat, at: nat)                             // the stopped Call schedules recovery
    | Fire(now: nat, timer: nat)
    | Arm(now: nat, run: nat, asked: nat)                     // asked: the action's own clock
    | Prove(now: nat, run: nat, blocks: seq<Block>, bookingMatches: bool)
    | ClaimUnused(now: nat, run: nat)
    | PostRelease(now: nat, run: nat, landed: bool, answer: Option<seq<string>>)
    | FinishUnused(now: nat, run: nat, restorable: bool)
    | RequestRemedy(now: nat, id: Remedy.RemedyIdentity)
    | Verify(now: nat, run: nat, paymentVerified: bool)
    | ClaimPaid(now: nat, run: nat, bookingMatches: bool)
    | PostRemedy(now: nat, run: nat, landed: bool, answer: Option<seq<string>>)
    | FinishPaid(now: nat, run: nat, restorable: bool)
    | Crash(now: nat, run: nat)
    | Other(now: nat, writer: Writer)

  function ApplyWriter(r: Rows, w: Writer, now: nat): Rows {
    match w
    case Watchdog(step) => Writers.BeginResponse(r, step, now)
    case SweepClaims(owner) => if IsRefundOwner(owner) then r else Writers.SweepClaim(r, owner, now)
    case SweepFinishes(owner, outcome, reason) =>
      if IsRefundOwner(owner) then r else Writers.SweepFinish(r, owner, now, outcome, reason)
    case Initialize => Writers.InitializeReconciliation(r, now)
    case MarkUnknown => Writers.MarkOutcomeUnknown(r, now)
    case QuarantineCall(key) => Writers.Quarantine(r, key, now)
    case ReleaseCall(refs, unused, restorable) => Writers.FinalizeRelease(r, refs, unused, restorable, now)
    case SettleCall(refs) => Writers.FinalizeSettlement(r, refs, now)
    case ObserveAttempt(key, after) => Writers.Observe(r, key, after)
    case SettleReservation(evidence) => Writers.SettleSpend(r, evidence)
    case ResetCall => Writers.ResetToPending(r, now)
    case StopFor(key, receipt) => Writers.RecordStop(r, key, receipt, now)
    case PrepareAttempt(key, attempt) => Writers.AddAttempt(r, key, attempt)
  }

  function StartsOf(s: Sys, chain: nat): seq<nat> { if chain in s.starts then s.starts[chain] else [] }

  // ---- expired-unused recovery ----

  function FireTimer(s: Sys, t: nat, now: nat): Sys {
    if t !in s.timers || now < s.timers[t].at then s else
      var Timer(chain, attempt, _) := s.timers[t];
      s.(timers := Remove(s.timers, t), expiry := s.expiry[s.next := Entered(chain, attempt)], next := s.next + 1,
         starts := s.starts[chain := StartsOf(s, chain) + [attempt]])
  }

  /** The successor is armed before any other work; without one the run stops here. */
  function ArmSuccessor(s: Sys, run: nat, asked: nat, now: nat): Sys {
    if run !in s.expiry || !s.expiry[run].Entered? then s else
      var Entered(chain, attempt) := s.expiry[run];
      var (rows, at) := Expiry.Schedule(s.rows, attempt + 1, asked + Expiry.SuccessorGap(attempt), now);
      if at.None? then s.(rows := rows, expiry := Remove(s.expiry, run))
      else s.(rows := rows, expiry := s.expiry[run := Armed(chain, attempt)],
              timers := s.timers[s.next := Timer(chain, attempt + 1, at.value)], next := s.next + 1,
              armed := s.armed + {(chain, attempt + 1)})
  }

  /** No two blocks at one height may differ. */
  predicate BlocksAgree(blocks: seq<Block>) {
    forall i, j :: 0 <= i < |blocks| && 0 <= j < |blocks| && blocks[i].number == blocks[j].number
                   ==> blocks[i] == blocks[j]
  }

  predicate ReadsAsUnused(r: Rows) {
    && r.call.Some? && r.call.value.result.NeedsReconciliation?
    && r.call.value.result.key in r.attempts
    && var a := r.attempts[r.call.value.result.key];
    && a.identityDigest.Some? && a.payer.Some? && a.nonce.Some? && a.expiresAt.Some?
    && a.forCall && a.forInput && a.settlement != Some(Settled) && Expiry.ResponsePermitsUnusedProof(a)
  }

  function ProveUnused(s: Sys, run: nat, blocks: seq<Block>, bookingMatches: bool): Sys {
    if run !in s.expiry || !s.expiry[run].Armed? then s
    else if !ReadsAsUnused(s.rows) || blocks == [] || !BlocksAgree(blocks) || !bookingMatches
    then s.(expiry := Remove(s.expiry, run))
    else
      var key := s.rows.call.value.result.key;
      var a := s.rows.attempts[key];
      s.(expiry := s.expiry[run := Proved(s.expiry[run].chain, s.expiry[run].attempt,
           Expiry.ExpiryProofArgs(key, a.identityDigest.value, a.nonce.value,
                                  ExpiryProof(key, a.nonce.value, blocks)))])
  }

  function ClaimRun(s: Sys, run: nat, now: nat): Sys {
    if run !in s.expiry || !s.expiry[run].Proved? then s else
      var Proved(chain, attempt, proof) := s.expiry[run];
      var (rows, digest) := Expiry.Claim(s.rows, proof, now);
      if digest.None? then s.(rows := rows, expiry := Remove(s.expiry, run))
      else s.(rows := rows, expiry := s.expiry[run := Pinned(chain, attempt, digest.value)],
              claims := s.claims + [ByExpiry(proof.key, proof.nonce, digest.value)])
  }

  function ReleaseOnLedger(s: Sys, run: nat, landed: bool, answer: Option<seq<string>>): Sys {
    if run !in s.expiry || !s.expiry[run].Pinned? || (answer.Some? && !landed) then s else
      var Pinned(chain, attempt, digest) := s.expiry[run];
      s.(ledger := if landed then s.ledger + [Release(chain, attempt, digest)] else s.ledger,
         expiry := if answer.Some? then s.expiry[run := Booked(chain, attempt, digest, answer.value)]
                   else Remove(s.expiry, run))
  }

  function FinishRun(s: Sys, run: nat, restorable: bool, now: nat): Sys {
    if run !in s.expiry || !s.expiry[run].Booked? then s else
      s.(rows := Expiry.Finish(s.rows, s.expiry[run].digest, s.expiry[run].refs, restorable, now).0,
         expiry := Remove(s.expiry, run))
  }

  // ---- paid-result remedy ----

  /** The action works with the lower-case hash. */
  function Asked(id: Remedy.RemedyIdentity): Remedy.RemedyIdentity { id.(hash := Lower(id.hash)) }

  predicate RemedyAsked(r: Rows, id: Remedy.RemedyIdentity) {
    r.call.Some? && r.call.value.result.NeedsReconciliation? && IsTransactionHash(id.hash)
  }

  /** The attempt names its payment, and its response is the one this failure kind speaks of. */
  predicate ReadsAsPaid(r: Rows, id: Remedy.RemedyIdentity) {
    && RemedyAsked(r, id) && r.call.value.result.key in r.attempts
    && var a := r.attempts[r.call.value.result.key];
    && a.forCall && a.payer.Some? && a.nonce.Some? && a.forInput && a.admittedToken
    && (if id.httpError then Remedy.RetainedHttpError(a.response) && a.settlement != Some(NotSettled)
        else a.response.transportObservation.None? && a.quarantinedOutput.None? && a.response.status.None?)
  }

  function VerifyPayment(s: Sys, run: nat, paymentVerified: bool): Sys {
    if run !in s.remedy || !s.remedy[run].Requested? then s
    else if !paymentVerified || !ReadsAsPaid(s.rows, s.remedy[run].id)
    then s.(remedy := Remove(s.remedy, run))
    else
      var key := s.rows.call.value.result.key;
      s.(remedy := s.remedy[run := Verified(s.remedy[run].id, key, s.rows.attempts[key])])
  }

  /** The digest binds the facts read before the claim. */
  function LossDigest(id: Remedy.RemedyIdentity, key: AttemptKey, seen: Attempt): Digest {
    PaidLoss(key, Lower(id.hash), if id.httpError then Some(seen.response) else None)
  }

  /** After a claim the run goes on only when the claimed attempt is the one it verified. */
  predicate SameIdentity(id: Remedy.RemedyIdentity, key: AttemptKey, seen: Attempt, c: Call, claimed: Attempt) {
    && c.result.NeedsReconciliation? && c.result.key == key
    && claimed.identityDigest == seen.identityDigest
    && (id.httpError ==> claimed.response == seen.response)
  }

  function ClaimPaidRun(s: Sys, run: nat, bookingMatches: bool, now: nat): Sys {
    if run !in s.remedy || !s.remedy[run].Verified? then s else
      var Verified(id, key, seen) := s.remedy[run];
      var (rows, answer) := Remedy.Claim(s.rows, id, now);
      if !answer.Claimed? then s.(rows := rows, remedy := Remove(s.remedy, run)) else
        var won := s.(rows := rows,
                      claims := s.claims + [ByRemedy(Lower(id.hash), id.httpError)]);
        if SameIdentity(id, key, seen, s.rows.call.value, answer.attempt) && bookingMatches
        then won.(remedy := s.remedy[run := Holding(id, LossDigest(id, key, seen))])
        else won.(remedy := Remove(s.remedy, run))
  }

  function RemedyOnLedger(s: Sys, run: nat, landed: bool, answer: Option<seq<string>>): Sys {
    if run !in s.remedy || !s.remedy[run].Holding? || (answer.Some? && !landed) then s else
      var Holding(id, digest) := s.remedy[run];
      s.(ledger := if landed then s.ledger + [PaidRemedy(Lower(id.hash), id.httpError, digest)] else s.ledger,
         remedy := if answer.Some? then s.remedy[run := Remedied(id, digest, answer.value)]
                   else Remove(s.remedy, run))
  }

  function FinishPaidRun(s: Sys, run: nat, restorable: bool, now: nat): Sys {
    if run !in s.remedy || !s.remedy[run].Remedied? then s else
      s.(rows := Remedy.Finish(s.rows, s.remedy[run].id, s.remedy[run].digest, s.remedy[run].refs, restorable, now).0,
         remedy := Remove(s.remedy, run))
  }

  /** One event. An event that is not enabled changes nothing. */
  function Step(s: Sys, e: Event): Sys {
    if e.now >= MAX_SAFE_INTEGER then s else
      match e
      case StopCall(_, at) => s.(timers := s.timers[s.next := Timer(s.next, 0, at)], next := s.next + 1)
      case Fire(now, t) => FireTimer(s, t, now)
      case Arm(now, run, asked) => ArmSuccessor(s, run, asked, now)
      case Prove(_, run, blocks, matches) => ProveUnused(s, run, blocks, matches)
      case ClaimUnused(now, run) => ClaimRun(s, run, now)
      case PostRelease(_, run, landed, answer) => ReleaseOnLedger(s, run, landed, answer)
      case FinishUnused(now, run, restorable) => FinishRun(s, run, restorable, now)
      case RequestRemedy(_, id) => s.(remedy := s.remedy[s.next := Requested(Asked(id))], next := s.next + 1)
      case Verify(_, run, verified) => VerifyPayment(s, run, verified)
      case ClaimPaid(now, run, matches) => ClaimPaidRun(s, run, matches, now)
      case PostRemedy(_, run, landed, answer) => RemedyOnLedger(s, run, landed, answer)
      case FinishPaid(now, run, restorable) => FinishPaidRun(s, run, restorable, now)
      case Crash(_, run) => s.(expiry := Remove(s.expiry, run), remedy := Remove(s.remedy, run))
      case Other(now, writer) => s.(rows := ApplyWriter(s.rows, writer, now))
  }

  function Run(s: Sys, events: seq<Event>): Sys {
    if events == [] then s else Step(Run(s, events[..|events| - 1]), events[|events| - 1])
  }

  predicate NoRefundLease(r: Rows) {
    r.call.Some? ==> !Writers.RefundLeased(r.call.value)
  }

  /** Two attempts are signed with two nonces. */
  predicate DistinctNonces(r: Rows) {
    forall j, k :: j in r.attempts && k in r.attempts && j != k ==>
                     r.attempts[j].nonce.None? || r.attempts[j].nonce != r.attempts[k].nonce
  }

  /** Before any refund run: no refund lease, nothing in flight, nothing posted. */
  predicate Initial(s: Sys) {
    && NoRefundLease(s.rows) && DistinctNonces(s.rows)
    && s.rows.effects == []
    && s.expiry == map[] && s.remedy == map[] && s.timers == map[]
    && s.ledger == [] && s.claims == [] && s.starts == map[] && s.armed == {}
  }
}
