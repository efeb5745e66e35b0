/**
 One refund family per Call: over every run of the system the first successful
 claim fences the Call until it is closed, every later claim and every ledger
 posting agrees with it, and the closed rows belong to it alone.
 */
module RefundSafety {
  import opened Wrappers
  import opened LeaseOwners
  import opened RefundRows
  import opened RefundProtocol
  import Expiry = ExpiryMutations
  import Remedy = RemedyMutations
  import Writers = LeaseWriters

  function OwnerFor(w: Claimant): LeaseOwner {
    match w
    case ByExpiry(_, nonce, _) => ExpiredUnused(nonce)
    case ByRemedy(hash, httpError) => PaidResultLoss(hash, httpError)
  }

  /** The permanent lease of the winner is on the stopped Call, whose money is still out. */
  predicate Leased(c: Call, w: Claimant) {
    && c.state.ReconciliationRequired?
    && c.result.NeedsReconciliation? && c.financial == OutcomeUnknown
    && LeasedTo(c, OwnerFor(w))
    && c.recon.value.leaseExpiresAt == Some(MAX_SAFE_INTEGER)
    && (c.recon.value.reason == RefundPending || c.recon.value.reason == RecoveryFailed)
  }

  /** The proof pinned by the first expired-unused claim is still the stored one. */
  predicate PinHolds(r: Rows, w: Claimant) {
    w.ByExpiry? ==> w.key in r.attempts && r.attempts[w.key].nonce == Some(w.nonce)
                    && r.attempts[w.key].evidence == Some(w.digest)
  }

  /** Closed by expiry: unpaid attempt, reversed obligation, no loss, and the pinned digest on the receipt. */
  predicate ClosedUnused(r: Rows, w: Claimant)
    requires r.call.Some? && w.ByExpiry?
  {
    var c := r.call.value;
    && c.result.RefusedResult? && c.result.code == SourceUnavailable && c.result.receipt.Some?
    && c.result.receipt.value.lossState == NoLoss
    && c.result.receipt.value.evidenceHash == w.digest
    && c.releaseRefs.Some? && |c.releaseRefs.value| >= 2
    && c.result.receipt.value.accountingRefs == c.releaseRefs
    && c.result.receipt.value.transactionRef == Some(c.releaseRefs.value[0])
    && c.evidenceHash == Some(w.digest)
    && w.key in r.attempts && r.attempts[w.key].settlement == Some(NotSettled) && r.attempts[w.key].evidence.Some?
    && r.obligation.Some? && r.obligation.value.state == Reversed
  }

  /** The attempt that a closing remedy found paid. */
  predicate PaidAttempt(r: Rows, evidence: Option<Digest>) {
    exists k :: k in r.attempts && r.attempts[k].settlement == Some(Settled) && r.attempts[k].evidence == evidence
  }

  /** The buyer's references, the Provider's and those of the grants are the positions of one posting. */
  predicate ReferencesSplit(c: Call, receipt: Receipt, obligation: Obligation) {
    && c.releaseRefs.Some? && |c.releaseRefs.value| >= 1 && c.settlementRefs.Some? && |c.settlementRefs.value| == 1
    && var buyer, provider, grants := c.releaseRefs.value[0], c.settlementRefs.value[0], c.releaseRefs.value[1..];
    && receipt.accountingRefs == Some([buyer, provider] + grants)
    && receipt.transactionRef == Some(buyer) && obligation.settlementRef == Some(provider)
  }

  /** Closed by remedy: paid attempt, settled obligation, a loss, and the claimed transaction on the receipt. */
  predicate ClosedPaid(r: Rows, w: Claimant)
    requires r.call.Some? && w.ByRemedy?
  {
    var c := r.call.value;
    && c.result.RefusedResult? && c.result.receipt.Some?
    && c.result.code == (if w.httpError then ProviderRefused else ResultInvalid)
    && c.result.receipt.value.lossState == (if w.httpError then ProviderHttpError else LossUnknown)
    && c.result.receipt.value.settlementRef == Some(w.hash)
    && c.evidenceHash == Some(c.result.receipt.value.evidenceHash) && PaidAttempt(r, c.evidenceHash)
    && r.obligation.Some? && r.obligation.value.state == ObligationSettled
    && ReferencesSplit(c, c.result.receipt.value, r.obligation.value)
  }

  /** Released to the buyer, with the lease gone and the Call refused. */
  predicate Closed(r: Rows, w: Claimant) {
    && r.call.Some?
    && var c := r.call.value;
    && c.state.Refused? && c.financial == Released && c.recon.None?
    && c.result.RefusedResult? && c.result.receipt.Some?
    && c.result.receipt.value.refundState == RefundReleased
    && (if w.ByExpiry? then ClosedUnused(r, w) else ClosedPaid(r, w))
  }

  /** The ordinary release of the Call came first: its money is back, and no refund closed it. */
  predicate ReleasedOrdinarily(r: Rows) {
    r.call.Some? && r.call.value.financial == Released && !r.call.value.state.Refused? && !r.call.value.result.RefusedResult?
  }

  predicate RowsFenced(r: Rows, w: Claimant) {
    || (r.call.Some? && Leased(r.call.value, w) && PinHolds(r, w))
    || Closed(r, w)
    || ReleasedOrdinarily(r)
  }

  predicate ExpiryRunAgrees(run: ExpiryRun, w: Option<Claimant>) {
    run.Pinned? || run.Booked? ==> w.Some? && w.value.ByExpiry? && run.digest == w.value.digest
  }

  predicate RemedyRunAgrees(run: RemedyRun, w: Option<Claimant>) {
    run.Holding? || run.Remedied? ==>
      w.Some? && w.value.ByRemedy? && Lower(run.id.hash) == w.value.hash && run.id.httpError == w.value.httpError
  }

  predicate PostingAgrees(p: Posting, w: Option<Claimant>) {
    && w.Some?
    && match p
       case Release(_, _, digest) => w.value.ByExpiry? && digest == w.value.digest
       case PaidRemedy(hash, httpError, _) => w.value.ByRemedy? && hash == w.value.hash && httpError == w.value.httpError
  }

  function Winner(s: Sys): Option<Claimant> {
    if s.claims == [] then None else Some(s.claims[0])
  }

  predicate RowsAgree(r: Rows, w: Option<Claimant>) {
    if w.None? then NoRefundLease(r) else RowsFenced(r, w.value)
  }

  predicate Fenced(s: Sys) {
    var w := Winner(s);
    && (forall i :: i in s.expiry ==> ExpiryRunAgrees(s.expiry[i], w))
    && (forall i :: i in s.remedy ==> RemedyRunAgrees(s.remedy[i], w))
    && (forall i :: 0 <= i < |s.ledger| ==> PostingAgrees(s.ledger[i], w))
    && (forall i :: 0 <= i < |s.claims| ==> s.claims[i] == w.value)
    && RowsAgree(s.rows, w)
  }

  // ---- each writer, on the rows alone ----

  lemma WriterKeepsUnfenced(r: Rows, w: Writer, now: nat)
    requires NoRefundLease(r)
    ensures NoRefundLease(ApplyWriter(r, w, now))
  {
  }

  lemma PaidAttemptStays(r: Rows, w: Writer, now: nat, evidence: Option<Digest>)
    requires PaidAttempt(r, evidence) && evidence.Some?
    ensures PaidAttempt(ApplyWriter(r, w, now), evidence)
  {
    var k :| k in r.attempts && r.attempts[k].settlement == Some(Settled) && r.attempts[k].evidence == evidence;
    var after := ApplyWriter(r, w, now);
    assert k in after.attempts && after.attempts[k].settlement == Some(Settled) && after.attempts[k].evidence == evidence;
  }

  /** No other writer takes the winner's lease; the ordinary release may only come first. */
  lemma WriterKeepsFence(r: Rows, w: Writer, now: nat, c: Claimant)
    requires RowsFenced(r, c) && now < MAX_SAFE_INTEGER
    ensures RowsFenced(ApplyWriter(r, w, now), c)
  {
    if Closed(r, c) && c.ByRemedy? { PaidAttemptStays(r, w, now, r.call.value.evidenceHash); }
  }

  lemma ScheduleKeepsFence(r: Rows, attempt: nat, runAt: nat, now: nat, c: Claimant)
    requires RowsFenced(r, c)
    ensures RowsFenced(Expiry.Schedule(r, attempt, runAt, now).0, c)
  {
  }

  lemma ScheduleKeepsUnfenced(r: Rows, attempt: nat, runAt: nat, now: nat)
    requires NoRefundLease(r)
    ensures NoRefundLease(Expiry.Schedule(r, attempt, runAt, now).0)
  {
  }

  /** An expired-unused claim on a fenced Call either changes nothing or repeats the winner. */
  lemma ExpiryClaimOnFence(r: Rows, p: Expiry.ExpiryProofArgs, now: nat, c: Claimant)
    requires RowsFenced(r, c) && DistinctNonces(r) && now < MAX_SAFE_INTEGER
    ensures Expiry.Claim(r, p, now).0 == r
    ensures Expiry.Claim(r, p, now).1.Some?
            ==> c == ByExpiry(p.key, p.nonce, Expiry.Claim(r, p, now).1.value)
  {
  }

  lemma ExpiryClaimFences(r: Rows, p: Expiry.ExpiryProofArgs, now: nat)
    requires NoRefundLease(r)
    ensures var (rows, d) := Expiry.Claim(r, p, now);
            if d.None? then rows == r else RowsFenced(rows, ByExpiry(p.key, p.nonce, d.value))
  {
  }

  /** A remedy claim on a fenced Call either wins nothing or repeats the winner, renewing its lease. */
  lemma RemedyClaimOnFence(r: Rows, i: Remedy.RemedyIdentity, now: nat, c: Claimant)
    requires RowsFenced(r, c) && now < MAX_SAFE_INTEGER
    ensures RowsFenced(Remedy.Claim(r, i, now).0, c)
    ensures Remedy.Claim(r, i, now).1.Claimed?
            ==> c == ByRemedy(Lower(i.hash), i.httpError)
  {
  }

  lemma RemedyClaimFences(r: Rows, i: Remedy.RemedyIdentity, now: nat)
    requires NoRefundLease(r)
    ensures var (rows, a) := Remedy.Claim(r, i, now);
            if a.Claimed? then RowsFenced(rows, ByRemedy(Lower(i.hash), i.httpError)) else rows == r
  {
  }

  lemma ExpiryFinishKeepsFence(r: Rows, digest: Digest, refs: seq<string>, ok: bool, now: nat, c: Claimant)
    requires RowsFenced(r, c) && DistinctNonces(r) && c.ByExpiry? && digest == c.digest
    ensures RowsFenced(Expiry.Finish(r, digest, refs, ok, now).0, c)
  {
  }

  lemma RemedyFinishKeepsFence(r: Rows, i: Remedy.RemedyIdentity, digest: Digest, refs: seq<string>,
                               ok: bool, now: nat, c: Claimant)
    requires RowsFenced(r, c) && c.ByRemedy? && Lower(i.hash) == c.hash && i.httpError == c.httpError
    ensures RowsFenced(Remedy.Finish(r, i, digest, refs, ok, now).0, c)
  {
    var after := Remedy.Finish(r, i, digest, refs, ok, now).0;
    if after != r {
      var key := r.call.value.result.key;
      assert after.attempts[key].settlement == Some(Settled) && after.attempts[key].evidence == Some(digest);
      assert refs == [refs[0], refs[1]] + refs[2..];
    }
  }

  // ---- each step ----

  /** A step that makes no posting or claim keeps the fence if its rows, and the runs it moves, agree with the winner. */
  lemma FrameKeepsFence(s: Sys, after: Sys)
    requires Fenced(s) && after.ledger == s.ledger && after.claims == s.claims && RowsAgree(after.rows, Winner(s))
    requires forall i :: i in after.expiry ==>
               (i in s.expiry && after.expiry[i] == s.expiry[i]) || !(after.expiry[i].Pinned? || after.expiry[i].Booked?)
    requires forall i :: i in after.remedy ==>
               (i in s.remedy && after.remedy[i] == s.remedy[i]) || !(after.remedy[i].Holding? || after.remedy[i].Remedied?)
    ensures Fenced(after)
  {
  }

  lemma ScheduleAgrees(r: Rows, w: Option<Claimant>, attempt: nat, runAt: nat, now: nat)
    requires RowsAgree(r, w)
    ensures RowsAgree(Expiry.Schedule(r, attempt, runAt, now).0, w)
  {
    if w.None? { ScheduleKeepsUnfenced(r, attempt, runAt, now); }
    else { ScheduleKeepsFence(r, attempt, runAt, now, w.value); }
  }

  lemma ArmStepKeepsFence(s: Sys, run: nat, asked: nat, now: nat)
    requires Fenced(s)
    ensures Fenced(ArmSuccessor(s, run, asked, now))
  {
    if run in s.expiry && s.expiry[run].Entered? {
      ScheduleAgrees(s.rows, Winner(s), s.expiry[run].attempt + 1,
                     asked + Expiry.SuccessorGap(s.expiry[run].attempt), now);
      FrameKeepsFence(s, ArmSuccessor(s, run, asked, now));
    }
  }

  /** The system after an expired-unused claim, before its run goes on or stops. */
  lemma UnusedClaimKeepsFence(s: Sys, p: Expiry.ExpiryProofArgs, now: nat)
    requires Fenced(s) && DistinctNonces(s.rows) && now < MAX_SAFE_INTEGER
    ensures var (rows, pin) := Expiry.Claim(s.rows, p, now);
            if pin.Some? then
              var w := ByExpiry(p.key, p.nonce, pin.value);
              var won := s.(rows := rows, claims := s.claims + [w]);
              Fenced(won) && Winner(won) == Some(w)
            else Fenced(s.(rows := rows))
  {
    if s.claims == [] { ExpiryClaimFences(s.rows, p, now); }
    else { ExpiryClaimOnFence(s.rows, p, now, s.claims[0]); }
  }

  lemma PinnedKeepsFence(s: Sys, run: nat, pinned: ExpiryRun)
    requires Fenced(s) && ExpiryRunAgrees(pinned, Winner(s))
    ensures Fenced(s.(expiry := s.expiry[run := pinned]))
  {
  }

  lemma StoppedKeepsFence(s: Sys, run: nat)
    requires Fenced(s)
    ensures Fenced(s.(expiry := Remove(s.expiry, run)))
  {
  }

  lemma ClaimStepKeepsFence(s: Sys, run: nat, now: nat)
    requires Fenced(s) && DistinctNonces(s.rows) && now < MAX_SAFE_INTEGER
    ensures Fenced(ClaimRun(s, run, now))
  {
    if run in s.expiry && s.expiry[run].Proved? {
      var Proved(chain, attempt, proof) := s.expiry[run];
      UnusedClaimKeepsFence(s, proof, now);
      var (rows, pin) := Expiry.Claim(s.rows, proof, now);
      if pin.Some? {
        var won := s.(rows := rows, claims := s.claims + [ByExpiry(proof.key, proof.nonce, pin.value)]);
        PinnedKeepsFence(won, run, Pinned(chain, attempt, pin.value));
      } else {
        StoppedKeepsFence(s.(rows := rows), run);
      }
    }
  }

  lemma FinishStepKeepsFence(s: Sys, run: nat, ok: bool, now: nat)
    requires Fenced(s) && DistinctNonces(s.rows)
    ensures Fenced(FinishRun(s, run, ok, now))
  {
    if run in s.expiry && s.expiry[run].Booked? {
      assert ExpiryRunAgrees(s.expiry[run], Winner(s));
      ExpiryFinishKeepsFence(s.rows, s.expiry[run].digest, s.expiry[run].refs, ok, now, s.claims[0]);
    }
  }

  /** The system after a won paid claim, before its run goes on or stops. */
  lemma PaidClaimKeepsFence(s: Sys, i: Remedy.RemedyIdentity, now: nat)
    requires Fenced(s) && now < MAX_SAFE_INTEGER
    ensures var (rows, answer) := Remedy.Claim(s.rows, i, now);
            if answer.Claimed? then
              var w := ByRemedy(Lower(i.hash), i.httpError);
              var won := s.(rows := rows, claims := s.claims + [w]);
              Fenced(won) && Winner(won) == Some(w)
            else Fenced(s.(rows := rows))
  {
    if s.claims == [] { RemedyClaimFences(s.rows, i, now); }
    else { RemedyClaimOnFence(s.rows, i, now, s.claims[0]); }
  }

  /** The run that won goes on as the winner. */
  lemma HoldingKeepsFence(s: Sys, run: nat, id: Remedy.RemedyIdentity, digest: Digest)
    requires Fenced(s) && Winner(s) == Some(ByRemedy(Lower(id.hash), id.httpError))
    ensures Fenced(s.(remedy := s.remedy[run := Holding(id, digest)]))
  {
  }

  lemma EndedKeepsFence(s: Sys, run: nat)
    requires Fenced(s)
    ensures Fenced(s.(remedy := Remove(s.remedy, run)))
  {
  }

  lemma PaidClaimStepKeepsFence(s: Sys, run: nat, matches: bool, now: nat)
    requires Fenced(s) && now < MAX_SAFE_INTEGER
    ensures Fenced(ClaimPaidRun(s, run, matches, now))
  {
    if run in s.remedy && s.remedy[run].Verified? {
      var Verified(id, key, seen) := s.remedy[run];
      PaidClaimKeepsFence(s, id, now);
      var (rows, answer) := Remedy.Claim(s.rows, id, now);
      if answer.Claimed? {
        var won := s.(rows := rows, claims := s.claims + [ByRemedy(Lower(id.hash), id.httpError)]);
        HoldingKeepsFence(won, run, id, LossDigest(id, key, seen));
        EndedKeepsFence(won, run);
      } else {
        EndedKeepsFence(s.(rows := rows), run);
      }
    }
  }

  lemma FinishPaidStepKeepsFence(s: Sys, run: nat, ok: bool, now: nat)
    requires Fenced(s)
    ensures Fenced(FinishPaidRun(s, run, ok, now))
  {
    if run in s.remedy && s.remedy[run].Remedied? {
      var b := s.remedy[run];
      assert RemedyRunAgrees(b, Winner(s));
      RemedyFinishKeepsFence(s.rows, b.id, b.digest, b.refs, ok, now, s.claims[0]);
    }
  }

  lemma ReleaseStepKeepsFence(s: Sys, run: nat, landed: bool, answer: Option<seq<string>>)
    requires Fenced(s)
    ensures Fenced(ReleaseOnLedger(s, run, landed, answer))
  {
    if run in s.expiry { assert ExpiryRunAgrees(s.expiry[run], Winner(s)); }
  }

  lemma RemedyPostKeepsFence(s: Sys, run: nat, landed: bool, answer: Option<seq<string>>)
    requires Fenced(s)
    ensures Fenced(RemedyOnLedger(s, run, landed, answer))
  {
    if run in s.remedy { assert RemedyRunAgrees(s.remedy[run], Winner(s)); }
  }

  lemma OtherStepKeepsFence(s: Sys, w: Writer, now: nat)
    requires Fenced(s) && now < MAX_SAFE_INTEGER
    ensures Fenced(s.(rows := ApplyWriter(s.rows, w, now)))
  {
    if s.claims == [] { WriterKeepsUnfenced(s.rows, w, now); }
    else { WriterKeepsFence(s.rows, w, now, s.claims[0]); }
  }

  lemma TimerStepKeepsFence(s: Sys, e: Event)
    requires Fenced(s) && (e.StopCall? || e.Fire? || e.RequestRemedy? || e.Crash?)
    ensures Fenced(Step(s, e))
  {
    FrameKeepsFence(s, Step(s, e));
  }

  lemma ProveStepKeepsFence(s: Sys, run: nat, blocks: seq<Block>, matches: bool)
    requires Fenced(s)
    ensures Fenced(ProveUnused(s, run, blocks, matches))
  {
    FrameKeepsFence(s, ProveUnused(s, run, blocks, matches));
  }

  lemma VerifyStepKeepsFence(s: Sys, run: nat, verified: bool)
    requires Fenced(s)
    ensures Fenced(VerifyPayment(s, run, verified))
  {
    FrameKeepsFence(s, VerifyPayment(s, run, verified));
  }

  /** The steps of a paid-result remedy, and of the other writers. */
  lemma PaidStepKeepsFence(s: Sys, e: Event)
    requires Fenced(s) && e.now < MAX_SAFE_INTEGER
    requires e.ClaimPaid? || e.PostRemedy? || e.FinishPaid? || e.Verify? || e.Other?
    ensures Fenced(Step(s, e))
  {
    match e
    case ClaimPaid(now, run, matches) => PaidClaimStepKeepsFence(s, run, matches, now);
    case PostRemedy(_, run, landed, answer) => RemedyPostKeepsFence(s, run, landed, answer);
    case FinishPaid(now, run, ok) => FinishPaidStepKeepsFence(s, run, ok, now);
    case Verify(_, run, verified) => VerifyStepKeepsFence(s, run, verified);
    case Other(now, writer) => OtherStepKeepsFence(s, writer, now);
  }

  lemma StepKeepsFence(s: Sys, e: Event)
    requires Fenced(s) && DistinctNonces(s.rows)
    ensures Fenced(Step(s, e))
  {
    if e.now < MAX_SAFE_INTEGER {
      match e
      case Arm(now, run, asked) => ArmStepKeepsFence(s, run, asked, now);
      case ClaimUnused(now, run) => ClaimStepKeepsFence(s, run, now);
      case PostRelease(_, run, landed, answer) => ReleaseStepKeepsFence(s, run, landed, answer);
      case FinishUnused(now, run, ok) => FinishStepKeepsFence(s, run, ok, now);
      case Prove(_, run, blocks, matches) => ProveStepKeepsFence(s, run, blocks, matches);
      case StopCall(_, _) => TimerStepKeepsFence(s, e);
      case Fire(_, _) => TimerStepKeepsFence(s, e);
      case RequestRemedy(_, _) => TimerStepKeepsFence(s, e);
      case Crash(_, _) => TimerStepKeepsFence(s, e);
      case _ => PaidStepKeepsFence(s, e);
    }
  }

  /** The events that write no row and win no claim. */
  lemma QuietStep(s: Sys, e: Event)
    requires !e.FinishUnused? && !e.FinishPaid? && !e.Other? && !e.Arm? && !e.ClaimUnused? && !e.ClaimPaid?
    ensures Step(s, e).rows == s.rows && Step(s, e).claims == s.claims
  {
  }

  // ---- nonces stay distinct ----

  /** Same attempts, signed with the same nonces. */
  predicate SameNonces(r: Rows, after: Rows) {
    after.attempts.Keys == r.attempts.Keys && forall k :: k in r.attempts ==> after.attempts[k].nonce == r.attempts[k].nonce
  }

  lemma WriterKeepsNonces(r: Rows, w: Writer, now: nat)
    requires DistinctNonces(r)
    ensures DistinctNonces(ApplyWriter(r, w, now))
  {
  }

  lemma ArmKeepsNonces(s: Sys, run: nat, asked: nat, now: nat)
    ensures SameNonces(s.rows, ArmSuccessor(s, run, asked, now).rows)
  {
  }

  lemma ClaimKeepsNonces(s: Sys, run: nat, now: nat)
    ensures SameNonces(s.rows, ClaimRun(s, run, now).rows)
  {
  }

  lemma FinishKeepsNonces(s: Sys, run: nat, ok: bool, now: nat)
    ensures SameNonces(s.rows, FinishRun(s, run, ok, now).rows)
  {
  }

  lemma PaidClaimKeepsNonces(s: Sys, run: nat, matches: bool, now: nat)
    ensures SameNonces(s.rows, ClaimPaidRun(s, run, matches, now).rows)
  {
  }

  lemma FinishPaidKeepsNonces(s: Sys, run: nat, ok: bool, now: nat)
    ensures SameNonces(s.rows, FinishPaidRun(s, run, ok, now).rows)
  {
  }

  lemma SameNoncesDistinct(r: Rows, after: Rows)
    requires DistinctNonces(r) && SameNonces(r, after)
    ensures DistinctNonces(after)
  {
  }

  lemma RunStepSameNonces(s: Sys, e: Event)
    requires !e.Other?
    ensures SameNonces(s.rows, Step(s, e).rows)
  {
    match e
    case Arm(now, run, asked) => ArmKeepsNonces(s, run, asked, now);
    case ClaimUnused(now, run) => ClaimKeepsNonces(s, run, now);
    case FinishUnused(now, run, ok) => FinishKeepsNonces(s, run, ok, now);
    case ClaimPaid(now, run, matches) => PaidClaimKeepsNonces(s, run, matches, now);
    case FinishPaid(now, run, ok) => FinishPaidKeepsNonces(s, run, ok, now);
    case _ => QuietStep(s, e);
  }

  lemma StepKeepsNonces(s: Sys, e: Event)
    requires DistinctNonces(s.rows)
    ensures DistinctNonces(Step(s, e).rows)
  {
    if e.Other? {
      WriterKeepsNonces(s.rows, e.writer, e.now);
    } else {
      RunStepSameNonces(s, e);
      SameNoncesDistinct(s.rows, Step(s, e).rows);
    }
  }

  lemma {:induction false} RunIsFenced(s: Sys, events: seq<Event>)
    requires Initial(s)
    ensures Fenced(Run(s, events)) && DistinctNonces(Run(s, events).rows)
  {
    if events != [] {
      RunIsFenced(s, events[..|events| - 1]);
      StepKeepsFence(Run(s, events[..|events| - 1]), events[|events| - 1]);
      StepKeepsNonces(Run(s, events[..|events| - 1]), events[|events| - 1]);
    }
  }

  // ---- theorems: any events, in any order ----

  /** Ledger postings come from at most one refund family, and agree within it. */
  lemma {:induction false} OneRefundFamily(s: Sys, events: seq<Event>)
    requires Initial(s)
    ensures var ledger := Run(s, events).ledger;
            forall i, j :: 0 <= i < |ledger| && 0 <= j < |ledger| ==>
              match (ledger[i], ledger[j])
              case (Release(_, _, d), Release(_, _, e)) => d == e
              case (PaidRemedy(h, k, _), PaidRemedy(g, l, _)) => h == g && k == l
              case _ => false
  {
    RunIsFenced(s, events);
    var end := Run(s, events);
    assert forall i :: 0 <= i < |end.ledger| ==> PostingAgrees(end.ledger[i], Winner(end));
  }

  /** Every expired-unused posting, and the receipt that closes the Call, carries the first pinned digest. */
  lemma {:induction false} FirstPinEverywhere(s: Sys, events: seq<Event>)
    requires Initial(s)
    ensures var end := Run(s, events);
            && (forall i :: 0 <= i < |end.ledger| && end.ledger[i].Release? ==>
                  end.claims != [] && end.claims[0].ByExpiry? && end.ledger[i].digest == end.claims[0].digest)
            && (end.claims != [] && end.claims[0].ByExpiry? && end.rows.call.Some? && end.rows.call.value.state.Refused?
                ==> end.rows.call.value.result.RefusedResult? && end.rows.call.value.result.receipt.Some?
                    && end.rows.call.value.result.receipt.value.evidenceHash == end.claims[0].digest)
  {
    RunIsFenced(s, events);
    var end := Run(s, events);
    assert forall i :: 0 <= i < |end.ledger| ==> PostingAgrees(end.ledger[i], Winner(end));
  }

  /** A claimed Call that left reconciliation was closed by the family that won, or its ordinary release came first. */
  lemma {:induction false} TerminalStatesNeverMix(s: Sys, events: seq<Event>)
    requires Initial(s)
    ensures var end := Run(s, events);
            end.claims != [] && !(end.rows.call.Some? && end.rows.call.value.state.ReconciliationRequired?)
            ==> Closed(end.rows, end.claims[0]) || ReleasedOrdinarily(end.rows)
  {
    RunIsFenced(s, events);
  }

  /**
   A Call closed by refund names its references right: after a remedy the buyer's release, the
   Provider's settlement and the grants are the positions of what was posted, the obligation
   is settled by the Provider's and the receipt names the buyer's; after an expired-unused
   refund everything posted is the buyer's.
   */
  lemma {:induction false} ReferencesNameTheirParty(s: Sys, events: seq<Event>)
    requires Initial(s) && Run(s, events).claims != []
    requires Run(s, events).rows.call.Some? && Run(s, events).rows.call.value.state.Refused?
    ensures var rows, w := Run(s, events).rows, Run(s, events).claims[0];
            var c := rows.call.value;
            && c.result.RefusedResult? && c.result.receipt.Some? && c.releaseRefs.Some? && |c.releaseRefs.value| >= 1
            && rows.obligation.Some?
            && var receipt := c.result.receipt.value;
            && receipt.transactionRef == Some(c.releaseRefs.value[0])
            && (w.ByExpiry? ==> receipt.accountingRefs == c.releaseRefs && rows.obligation.value.state.Reversed?)
            && (w.ByRemedy? ==>
                  && c.settlementRefs.Some? && |c.settlementRefs.value| == 1 && rows.obligation.value.state.ObligationSettled?
                  && receipt.accountingRefs
                     == Some([c.releaseRefs.value[0], c.settlementRefs.value[0]] + c.releaseRefs.value[1..])
                  && rows.obligation.value.settlementRef == Some(c.settlementRefs.value[0]))
  {
    RunIsFenced(s, events);
  }

  /**
   The lease of the first claimant never runs out and is never taken: the Call stays stopped
   under it until it is closed for that claimant, or its ordinary release came first.
   */
  lemma {:induction false} LeaseIsNeverTaken(s: Sys, events: seq<Event>)
    requires Initial(s) && Run(s, events).claims != []
    ensures var rows, w := Run(s, events).rows, Run(s, events).claims[0];
            || Closed(rows, w)
            || ReleasedOrdinarily(rows)
            || (&& rows.call.Some? && rows.call.value.state.ReconciliationRequired?
                && rows.call.value.result.NeedsReconciliation? && LeasedTo(rows.call.value, OwnerFor(w))
                && rows.call.value.recon.value.leaseExpiresAt == Some(MAX_SAFE_INTEGER))
  {
    RunIsFenced(s, events);
  }

  // ---- once the money is back ----

  predicate MoneyReturned(r: Rows) { r.call.Some? && r.call.value.financial == Released }

  lemma WriterAfterRelease(r: Rows, w: Writer, now: nat)
    requires MoneyReturned(r)
    ensures MoneyReturned(ApplyWriter(r, w, now))
  {
  }

  lemma ArmAfterRelease(s: Sys, run: nat, asked: nat, now: nat)
    requires MoneyReturned(s.rows)
    ensures var after := ArmSuccessor(s, run, asked, now); MoneyReturned(after.rows) && after.claims == s.claims
  {
  }

  lemma ClaimAfterRelease(s: Sys, run: nat, now: nat)
    requires MoneyReturned(s.rows)
    ensures ClaimRun(s, run, now).rows == s.rows && ClaimRun(s, run, now).claims == s.claims
  {
  }

  lemma PaidClaimAfterRelease(s: Sys, run: nat, matches: bool, now: nat)
    requires MoneyReturned(s.rows)
    ensures var after := ClaimPaidRun(s, run, matches, now); after.rows == s.rows && after.claims == s.claims
  {
  }

  lemma FinishAfterRelease(s: Sys, run: nat, ok: bool, now: nat)
    requires MoneyReturned(s.rows)
    ensures MoneyReturned(FinishRun(s, run, ok, now).rows) && FinishPaidRun(s, run, ok, now).rows == s.rows
  {
  }

  lemma ReleasedStep(s: Sys, e: Event)
    requires MoneyReturned(s.rows)
    ensures MoneyReturned(Step(s, e).rows) && Step(s, e).claims == s.claims
  {
    match e
    case ClaimUnused(now, run) => ClaimAfterRelease(s, run, now);
    case ClaimPaid(now, run, matches) => PaidClaimAfterRelease(s, run, matches, now);
    case FinishUnused(now, run, ok) => FinishAfterRelease(s, run, ok, now);
    case FinishPaid(now, run, ok) => FinishAfterRelease(s, run, ok, now);
    case Arm(now, run, asked) => ArmAfterRelease(s, run, asked, now);
    case Other(now, writer) => WriterAfterRelease(s.rows, writer, now);
    case _ => QuietStep(s, e);
  }

  /** After any release of a Call no refund is ever claimed again, whatever resets, stops and attempts follow. */
  lemma {:induction false} ReleaseOpensNoRefund(s: Sys, events: seq<Event>)
    requires MoneyReturned(s.rows)
    ensures Run(s, events).claims == s.claims && MoneyReturned(Run(s, events).rows)
  {
    if events != [] {
      ReleaseOpensNoRefund(s, events[..|events| - 1]);
      ReleasedStep(Run(s, events[..|events| - 1]), events[|events| - 1]);
    }
  }
}
