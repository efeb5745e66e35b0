/**
 Financial facts are committed at most once over any run, by whichever of refund,
 ordinary release and settlement gets there first; a finish replay changes nothing.
 */
module RefundExactlyOnce {
  import opened Wrappers
  import opened LeaseOwners
  import opened RefundRows
  import opened RefundProtocol
  import Expiry = ExpiryMutations
  import Remedy = RemedyMutations
  import Writers = LeaseWriters
  import Safety = RefundSafety

  predicate FinanciallyClosed(r: Rows) {
    r.call.Some? && (r.call.value.financial == Released || r.call.value.financial == FinanciallySettled)
  }

  /** Each kind of fact is absent, or committed once with the row state that blocks a second one. */
  predicate Once(r: Rows) {
    && Count(r.effects, CreditKind) <= 1
    && Count(r.effects, ObligationKind) <= 1
    && Count(r.effects, SpendKind) <= 1
    && (Count(r.effects, CreditKind) == 1 ==> r.call.Some? && r.call.value.financial == Released)
    && (Count(r.effects, ObligationKind) == 1 ==> FinanciallyClosed(r))
    && (Count(r.effects, SpendKind) == 1 ==> r.spend.Some? && r.spend.value.state != Liability)
  }

  /** The effects after a commit, in commit order. */
  function Committed(before: seq<Effect>, credit: bool, spend: bool, obligation: bool, state: ObligationState)
    : seq<Effect>
  {
    before + (if credit then [CreditRestored] else []) + (if spend then [SpendClosed(SpendUnused)] else [])
    + (if obligation then [ObligationClosed(state)] else [])
  }

  /** A commit adds at most one fact of each kind. */
  lemma CommitCounts(before: seq<Effect>, credit: bool, spend: bool, obligation: bool, state: ObligationState,
                     kind: EffectKind)
    ensures Count(Committed(before, credit, spend, obligation, state), kind)
            == Count(before, kind) + (match kind
                                      case CreditKind => if credit then 1 else 0
                                      case SpendKind => if spend then 1 else 0
                                      case ObligationKind => if obligation then 1 else 0)
  {
    var a := before + (if credit then [CreditRestored] else []);
    var b := a + (if spend then [SpendClosed(SpendUnused)] else []);
    assert before + [] == before && a + [] == a && b + [] == b;
    CountOne(before, CreditRestored, kind);
    CountOne(a, SpendClosed(SpendUnused), kind);
    CountOne(b, ObligationClosed(state), kind);
  }

  /** A commit keeps every count at one when it starts from an open Call and leaves a closed one. */
  lemma CommitOnce(r: Rows, after: Rows, credit: bool, spend: bool, obligation: bool, state: ObligationState)
    requires Once(r) && after.effects == Committed(r.effects, credit, spend, obligation, state)
    requires !FinanciallyClosed(r) && FinanciallyClosed(after)
    requires credit ==> after.call.value.financial == Released
    requires if spend then r.spend.Some? && r.spend.value.state == Liability
                           && after.spend.Some? && after.spend.value.state != Liability
             else after.spend == r.spend
    ensures Once(after)
  {
    CommitCounts(r.effects, credit, spend, obligation, state, CreditKind);
    CommitCounts(r.effects, credit, spend, obligation, state, SpendKind);
    CommitCounts(r.effects, credit, spend, obligation, state, ObligationKind);
  }

  lemma CloseExpiredOnce(r: Rows, digest: Digest, refs: seq<string>, now: nat)
    requires Once(r) && Expiry.FinishAdmits(r, digest, refs) && !Expiry.SpendConflicts(r, r.call.value.result.key, digest)
    ensures Once(Expiry.CloseExpired(r, digest, refs, now))
  {
    var key := r.call.value.result.key;
    var closes := r.spend.Some? && r.spend.value.key == key && r.spend.value.state == Liability;
    CommitOnce(r, Expiry.CloseExpired(r, digest, refs, now), r.call.value.promoGrants.Some?, closes, true, Reversed);
  }

  lemma ExpiryFinishOnce(r: Rows, digest: Digest, refs: seq<string>, ok: bool, now: nat)
    requires Once(r)
    ensures Once(Expiry.Finish(r, digest, refs, ok, now).0)
  {
    if r.call.Some? && Expiry.ReleasedWith(r.call.value, digest) {
      QuietOnce(r, Expiry.Finish(r, digest, refs, ok, now).0);
    } else if Expiry.FinishAdmits(r, digest, refs) && !Expiry.SpendConflicts(r, r.call.value.result.key, digest) {
      CloseExpiredOnce(r, digest, refs, now);
    }
  }

  lemma ClosePaidOnce(r: Rows, i: Remedy.RemedyIdentity, digest: Digest, refs: seq<string>, now: nat)
    requires Once(r) && Remedy.FinishAdmits(r, i, refs)
    ensures Once(Remedy.ClosePaid(r, i, digest, refs, now))
  {
    CommitOnce(r, Remedy.ClosePaid(r, i, digest, refs, now), r.call.value.promoGrants.Some?, false, true, ObligationSettled);
  }

  lemma RemedyFinishOnce(r: Rows, i: Remedy.RemedyIdentity, digest: Digest, refs: seq<string>, ok: bool, now: nat)
    requires Once(r)
    ensures Once(Remedy.Finish(r, i, digest, refs, ok, now).0)
  {
    if Remedy.FinishAdmits(r, i, refs) { ClosePaidOnce(r, i, digest, refs, now); }
  }

  lemma ReleaseOnce(r: Rows, refs: seq<string>, unused: bool, ok: bool, now: nat)
    requires Once(r)
    ensures Once(Writers.FinalizeRelease(r, refs, unused, ok, now))
  {
    var after := Writers.FinalizeRelease(r, refs, unused, ok, now);
    if after.effects == r.effects && after.call == r.call {
      QuietOnce(r, after);
    } else {
      CommitOnce(r, after, r.call.value.promoGrants.Some?, false, r.obligation.Some?, Reversed);
    }
  }

  lemma SettlementOnce(r: Rows, refs: seq<string>, now: nat)
    requires Once(r)
    ensures Once(Writers.FinalizeSettlement(r, refs, now))
  {
    var after := Writers.FinalizeSettlement(r, refs, now);
    if after.effects == r.effects && after.call == r.call {
      QuietOnce(r, after);
    } else {
      assert r.effects + [] == r.effects;
      CommitOnce(r, after, false, false, r.obligation.Some?, ObligationSettled);
    }
  }

  lemma ReservationOnce(r: Rows, evidence: Digest)
    requires Once(r)
    ensures Once(Writers.SettleSpend(r, evidence))
  {
    CountOne(r.effects, SpendClosed(SpendSettled), CreditKind);
    CountOne(r.effects, SpendClosed(SpendSettled), ObligationKind);
    CountOne(r.effects, SpendClosed(SpendSettled), SpendKind);
  }

  /** A writer that commits no fact and leaves the financial state closed if it was. */
  lemma QuietOnce(r: Rows, after: Rows)
    requires Once(r) && after.effects == r.effects && after.spend == r.spend
    requires FinanciallyClosed(r) ==> after.call.Some? && after.call.value.financial == r.call.value.financial
    ensures Once(after)
  {
  }

  lemma WriterOnce(r: Rows, w: Writer, now: nat)
    requires Once(r)
    ensures Once(ApplyWriter(r, w, now))
  {
    match w
    case ReleaseCall(refs, unused, ok) => ReleaseOnce(r, refs, unused, ok, now);
    case SettleCall(refs) => SettlementOnce(r, refs, now);
    case SettleReservation(evidence) => ReservationOnce(r, evidence);
    case _ => QuietOnce(r, ApplyWriter(r, w, now));
  }

  lemma ArmOnce(s: Sys, run: nat, asked: nat, now: nat)
    requires Once(s.rows)
    ensures Once(ArmSuccessor(s, run, asked, now).rows)
  {
    QuietOnce(s.rows, ArmSuccessor(s, run, asked, now).rows);
  }

  /** Claiming commits no fact and changes no financial state. */
  lemma ClaimOnce(s: Sys, run: nat, now: nat)
    requires Once(s.rows)
    ensures Once(ClaimRun(s, run, now).rows)
  {
    var after := ClaimRun(s, run, now).rows;
    assert after.effects == s.rows.effects && after.spend == s.rows.spend;
    QuietOnce(s.rows, after);
  }

  lemma PaidClaimOnce(s: Sys, run: nat, matches: bool, now: nat)
    requires Once(s.rows)
    ensures Once(ClaimPaidRun(s, run, matches, now).rows)
  {
    var after := ClaimPaidRun(s, run, matches, now).rows;
    assert after.effects == s.rows.effects && after.spend == s.rows.spend;
    QuietOnce(s.rows, after);
  }

  lemma StepOnce(s: Sys, e: Event)
    requires Once(s.rows)
    ensures Once(Step(s, e).rows)
  {
    if e.FinishUnused? {
      if e.run in s.expiry && s.expiry[e.run].Booked? {
        ExpiryFinishOnce(s.rows, s.expiry[e.run].digest, s.expiry[e.run].refs, e.restorable, e.now);
      }
    } else if e.FinishPaid? {
      if e.run in s.remedy && s.remedy[e.run].Remedied? {
        RemedyFinishOnce(s.rows, s.remedy[e.run].id, s.remedy[e.run].digest, s.remedy[e.run].refs, e.restorable, e.now);
      }
    } else if e.Other? {
      WriterOnce(s.rows, e.writer, e.now);
    } else if e.Arm? {
      ArmOnce(s, e.run, e.asked, e.now);
    } else if e.ClaimUnused? {
      ClaimOnce(s, e.run, e.now);
    } else if e.ClaimPaid? {
      PaidClaimOnce(s, e.run, e.bookingMatches, e.now);
    } else {
      Safety.QuietStep(s, e);
    }
  }

  lemma {:induction false} RunOnce(s: Sys, events: seq<Event>)
    requires Initial(s)
    ensures Once(Run(s, events).rows)
  {
    if events != [] {
      RunOnce(s, events[..|events| - 1]);
      StepOnce(Run(s, events[..|events| - 1]), events[|events| - 1]);
    }
  }

  /** How many facts of each kind one refund adds. */
  predicate Commits(before: Rows, after: Rows, credit: bool, spend: bool) {
    && Count(after.effects, CreditKind) == Count(before.effects, CreditKind) + (if credit then 1 else 0)
    && Count(after.effects, SpendKind) == Count(before.effects, SpendKind) + (if spend then 1 else 0)
    && Count(after.effects, ObligationKind) == Count(before.effects, ObligationKind) + 1
  }

  /**
   A finish that follows a won expired-unused claim closes the Call exactly when the
   obligation exists, the ledger answered one ref per entry, the credit restore succeeds
   and the reservation does not conflict. It then restores the credit and closes the
   obligation and an open reservation once each; otherwise the claimed rows stand.
   */
  lemma ClaimThenFinish(r: Rows, p: Expiry.ExpiryProofArgs, now: nat, refs: seq<string>, ok: bool, t: nat)
    requires Expiry.Claim(r, p, now).1.Some?
    ensures r.call.Some? && p.key in r.attempts
    ensures var (held, pin) := Expiry.Claim(r, p, now);
            var (done, kind) := Expiry.Finish(held, pin.value, refs, ok, t);
            && (kind.FinishCompleted? <==> && r.obligation.Some? && |refs| == RefundEntries(r.call.value)
                                           && (r.call.value.promoGrants.Some? ==> ok)
                                           && !Expiry.SpendConflicts(r, p.key, pin.value))
            && (if kind.FinishCompleted? then
                  && Safety.Closed(done, ByExpiry(p.key, p.nonce, pin.value)) && done.call.value.releaseRefs == Some(refs)
                  && Commits(r, done, r.call.value.promoGrants.Some?,
                             r.spend.Some? && r.spend.value.key == p.key && r.spend.value.state == Liability)
                else done == held)
  {
    var (held, pin) := Expiry.Claim(r, p, now);
    ClaimedAdmits(r, p, now, refs);
    if Expiry.FinishAdmits(held, pin.value, refs) && !Expiry.SpendConflicts(held, p.key, pin.value) {
      CloseAfterClaim(held, p, pin.value, refs, t);
    }
  }

  /** What a won claim leaves for its finish to check. */
  lemma ClaimedAdmits(r: Rows, p: Expiry.ExpiryProofArgs, now: nat, refs: seq<string>)
    requires Expiry.Claim(r, p, now).1.Some?
    ensures var (held, pin) := Expiry.Claim(r, p, now);
            && r.call.Some? && p.key in r.attempts && p.key in held.attempts
            && held.attempts[p.key] == r.attempts[p.key].(evidence := held.attempts[p.key].evidence)
            && held.call.Some? && OpenForRefund(held.call.value) && held.call.value.result.key == p.key
            && held.call.value.promoGrants == r.call.value.promoGrants
            && held.spend == r.spend && held.effects == r.effects && held.obligation == r.obligation
            && (Expiry.FinishAdmits(held, pin.value, refs)
                <==> r.obligation.Some? && |refs| == RefundEntries(r.call.value))
  {
  }

  lemma CloseAfterClaim(held: Rows, p: Expiry.ExpiryProofArgs, pin: Digest, refs: seq<string>, t: nat)
    requires Expiry.FinishAdmits(held, pin, refs) && held.call.value.result.key == p.key
    requires p.key in held.attempts && !Expiry.SpendConflicts(held, p.key, pin)
    ensures var done := Expiry.CloseExpired(held, pin, refs, t);
            && Safety.Closed(done, ByExpiry(p.key, p.nonce, pin)) && done.call.value.releaseRefs == Some(refs)
            && Commits(held, done, held.call.value.promoGrants.Some?,
                       held.spend.Some? && held.spend.value.key == p.key && held.spend.value.state == Liability)
  {
    var done, credit := Expiry.CloseExpired(held, pin, refs, t), held.call.value.promoGrants.Some?;
    var closes := held.spend.Some? && held.spend.value.key == p.key && held.spend.value.state == Liability;
    assert done.effects == Committed(held.effects, credit, closes, true, Reversed);
    CountCommit(held, done, credit, closes, Reversed);
  }

  lemma CountCommit(r: Rows, done: Rows, credit: bool, spend: bool, state: ObligationState)
    requires done.effects == Committed(r.effects, credit, spend, true, state)
    ensures Commits(r, done, credit, spend)
  {
    CommitCounts(r.effects, credit, spend, true, state, CreditKind);
    CommitCounts(r.effects, credit, spend, true, state, SpendKind);
    CommitCounts(r.effects, credit, spend, true, state, ObligationKind);
  }

  /** The same for a paid-result remedy, which never touches the reservation. */
  lemma PaidClaimThenFinish(r: Rows, i: Remedy.RemedyIdentity, now: nat, d: Digest, refs: seq<string>, ok: bool, t: nat)
    requires Remedy.Claim(r, i, now).1.Claimed?
    ensures r.call.Some? && r.call.value.result.NeedsReconciliation?
    ensures var held := Remedy.Claim(r, i, now).0;
            var (done, kind) := Remedy.Finish(held, i, d, refs, ok, t);
            && (kind.FinishCompleted? <==> && IsSha256(d) && r.obligation.Some? && |refs| == RefundEntries(r.call.value)
                                           && (r.call.value.promoGrants.Some? ==> ok))
            && (if kind.FinishCompleted? then
                  && Safety.Closed(done, ByRemedy(Lower(i.hash), i.httpError))
                  && done.call.value.evidenceHash == Some(d) && Commits(r, done, r.call.value.promoGrants.Some?, false)
                  && |refs| >= 2 && done.call.value.releaseRefs == Some([refs[0]] + refs[2..])
                  && done.call.value.settlementRefs == Some([refs[1]])
                  && done.obligation == Some(Obligation(ObligationSettled, Some(refs[1])))
                  && done.call.value.result.receipt.value.accountingRefs == Some(refs)
                  && done.call.value.result.receipt.value.transactionRef == Some(refs[0])
                else done == held)
  {
    var held := Remedy.Claim(r, i, now).0;
    PaidClaimedAdmits(r, i, now, refs);
    if Remedy.FinishAdmits(held, i, refs) { CloseAfterPaidClaim(held, i, d, refs, t); }
  }

  /** What a won remedy claim leaves for its finish to check. */
  lemma PaidClaimedAdmits(r: Rows, i: Remedy.RemedyIdentity, now: nat, refs: seq<string>)
    requires Remedy.Claim(r, i, now).1.Claimed?
    ensures var held := Remedy.Claim(r, i, now).0;
            && r.call.Some? && held.call.Some? && OpenForRefund(r.call.value) && OpenForRefund(held.call.value)
            && held == r.(call := held.call)
            && held.call.value == r.call.value.(recon := held.call.value.recon)
            && (Remedy.FinishAdmits(held, i, refs) <==> r.obligation.Some? && |refs| == RefundEntries(r.call.value))
  {
  }

  lemma CloseAfterPaidClaim(held: Rows, i: Remedy.RemedyIdentity, d: Digest, refs: seq<string>, t: nat)
    requires Remedy.FinishAdmits(held, i, refs)
    ensures var done := Remedy.ClosePaid(held, i, d, refs, t);
            && Safety.Closed(done, ByRemedy(Lower(i.hash), i.httpError))
            && done.call.value.evidenceHash == Some(d) && Commits(held, done, held.call.value.promoGrants.Some?, false)
            && |refs| >= 2 && done.call.value.releaseRefs == Some([refs[0]] + refs[2..])
            && done.call.value.settlementRefs == Some([refs[1]])
            && done.obligation == Some(Obligation(ObligationSettled, Some(refs[1])))
            && done.call.value.result.receipt.value.accountingRefs == Some(refs)
            && done.call.value.result.receipt.value.transactionRef == Some(refs[0])
  {
    var done := Remedy.ClosePaid(held, i, d, refs, t);
    var key := held.call.value.result.key;
    assert done.attempts[key].settlement == Some(Settled) && done.attempts[key].evidence == Some(d);
    assert refs == [refs[0], refs[1]] + refs[2..];
    assert done.effects == Committed(held.effects, held.call.value.promoGrants.Some?, false, true, ObligationSettled);
    CountCommit(held, done, held.call.value.promoGrants.Some?, false, ObligationSettled);
  }

  /** Over any run, credit is restored at most once, and obligation and reservation close at most once each. */
  lemma {:induction false} EachFactAtMostOnce(s: Sys, events: seq<Event>, kind: EffectKind)
    requires Initial(s)
    ensures Count(Run(s, events).rows.effects, kind) <= 1
  {
    RunOnce(s, events);
  }

  /**
   After an expired-unused finish has closed the Call, a finish with the same digest
   and refs completes and changes nothing at all; any other finish, of either
   family, is refused without a change.
   */
  lemma ExpiryReplay(r: Rows, d: Digest, refs: seq<string>, ok: bool, t: nat,
                     d': Digest, refs': seq<string>, ok': bool, t': nat, i: Remedy.RemedyIdentity)
    requires Expiry.FinishAdmits(r, d, refs)
    requires Expiry.Finish(r, d, refs, ok, t).1.FinishCompleted?
    ensures var closed := Expiry.Finish(r, d, refs, ok, t).0;
            && closed.call.Some? && closed.call.value.state.Refused?
            && Expiry.Finish(closed, d', refs', ok', t')
               == (closed, if d' == d && refs' == refs then Expiry.FinishCompleted else Expiry.FinishRefused)
            && Remedy.Finish(closed, i, d', refs', ok', t') == (closed, Expiry.FinishRefused)
  {
    var closed := Expiry.Finish(r, d, refs, ok, t).0;
    assert closed == Expiry.CloseExpired(r, d, refs, t);
  }

  /** The same for a paid-result remedy: only its own transaction, kind, digest and refs replay. */
  lemma RemedyReplay(r: Rows, i: Remedy.RemedyIdentity, d: Digest, refs: seq<string>, ok: bool, t: nat,
                     i': Remedy.RemedyIdentity, d': Digest, refs': seq<string>, ok': bool, t': nat)
    requires Remedy.FinishAdmits(r, i, refs) && IsSha256(d)
    requires Remedy.Finish(r, i, d, refs, ok, t).1.FinishCompleted?
    ensures var closed := Remedy.Finish(r, i, d, refs, ok, t).0;
            var same := d' == d && refs' == refs && Lower(i'.hash) == Lower(i.hash) && i'.httpError == i.httpError;
            && Remedy.Finish(closed, i', d', refs', ok', t')
               == (closed, if same then Expiry.FinishCompleted else Expiry.FinishRefused)
            && (d' != d ==> Expiry.Finish(closed, d', refs', ok', t') == (closed, Expiry.FinishRefused))
  {
    var closed := Remedy.Finish(r, i, d, refs, ok, t).0;
    assert closed == Remedy.ClosePaid(r, i, d, refs, t);
  }

  /** On a closed Call no finish of either family moves a financial fact, whatever digest and refs it brings. */
  lemma ClosedFinishMovesNoFact(r: Rows, w: Claimant, i: Remedy.RemedyIdentity, d: Digest, refs: seq<string>,
                                ok: bool, t: nat)
    requires Safety.Closed(r, w)
    ensures Remedy.Finish(r, i, d, refs, ok, t).0 == r
    ensures var after := Expiry.Finish(r, d, refs, ok, t).0;
            && after == r.(call := after.call) && after.call.Some?
            && after.call.value == r.call.value.(result := after.call.value.result)
            && (w.ByExpiry? ==> after == r)
  {
    if w.ByExpiry? { assert r.call.value.result.(code := SourceUnavailable) == r.call.value.result; }
  }

  /**
   Where the two replays would meet: an expired-unused finish handed the digest and
   release refs of a Call closed by remedy answers "completed" and overwrites the
   refusal code. It happens exactly when the digest is the stored one.
   */
  lemma CrossReplayRewritesCode(r: Rows, w: Claimant, d: Digest, refs: seq<string>, ok: bool, t: nat)
    requires Safety.Closed(r, w) && w.ByRemedy? && r.call.value.releaseRefs == Some(refs)
    ensures Expiry.Finish(r, d, refs, ok, t).1.FinishCompleted?
            <==> r.call.value.result.receipt.value.evidenceHash == d
    ensures Expiry.Finish(r, d, refs, ok, t).0 != r
            <==> r.call.value.result.receipt.value.evidenceHash == d
  {
  }

  /** No run gets there: once a remedy has won, no expired-unused run reaches its finish. */
  lemma {:induction false} NoCrossFinish(s: Sys, events: seq<Event>, run: nat)
    requires Initial(s)
    requires var end := Run(s, events); end.claims != [] && end.claims[0].ByRemedy? && run in end.expiry
    ensures var at := Run(s, events).expiry[run]; !at.Pinned? && !at.Booked?
    ensures forall ok, now :: FinishRun(Run(s, events), run, ok, now) == Run(s, events)
  {
    Safety.RunIsFenced(s, events);
    assert Safety.ExpiryRunAgrees(Run(s, events).expiry[run], Safety.Winner(Run(s, events)));
  }
}
