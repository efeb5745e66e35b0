/**
 The bounded retry chain of expired-unused recovery, and what it cannot repair.
 */
module RefundRetries {
  import opened Wrappers
  import opened LeaseOwners
  import opened RefundRows
  import opened RefundProtocol
  import Expiry = ExpiryMutations
  import Remedy = RemedyMutations
  import Writers = LeaseWriters
  import Safety = RefundSafety

  /** A timer or a run that has not yet armed its successor carries its chain forward. */
  predicate TimerCarries(s: Sys, t: Timer) {
    t.attempt <= 4 && t.chain < s.next && StartsOf(s, t.chain) == UpTo(t.attempt)
  }

  predicate EnteredCarries(s: Sys, run: ExpiryRun) {
    run.Entered? ==> run.attempt <= 4 && run.chain < s.next && StartsOf(s, run.chain) == UpTo(run.attempt + 1)
  }

  predicate ArmedBefore(s: Sys, run: ExpiryRun) {
    !run.Entered? ==> run.attempt <= 3 && (run.chain, run.attempt + 1) in s.armed
  }

  predicate PostedAfterArming(s: Sys, p: Posting) {
    p.Release? ==> p.attempt <= 3 && (p.chain, p.attempt + 1) in s.armed
  }

  ghost predicate TimersCarry(s: Sys) {
    forall t :: t in s.timers ==> TimerCarries(s, s.timers[t])
  }

  ghost predicate RunsCarry(s: Sys) {
    forall i :: i in s.expiry ==> EnteredCarries(s, s.expiry[i]) && ArmedBefore(s, s.expiry[i])
  }

  /** The chain that a timer or a run still has to carry forward, if any. */
  function Carried(s: Sys, k: nat): Option<nat> {
    if k in s.timers then Some(s.timers[k].chain)
    else if k in s.expiry && s.expiry[k].Entered? then Some(s.expiry[k].chain)
    else None
  }

  /** Every chain has at most one carrier. Timers and runs share one supply of ids. */
  ghost predicate OneCarrier(s: Sys) {
    && (forall k :: k in s.timers || k in s.expiry ==> k < s.next)
    && (forall k :: k in s.timers ==> k !in s.expiry)
    && (forall j: nat, k: nat :: j != k && Carried(s, j).Some? ==> Carried(s, j) != Carried(s, k))
  }

  ghost predicate StartsInOrder(s: Sys) {
    forall c :: c in s.starts ==> c < s.next && |s.starts[c]| <= 5 && s.starts[c] == UpTo(|s.starts[c]|)
  }

  ghost predicate LedgerAfterArming(s: Sys) {
    forall i :: 0 <= i < |s.ledger| ==> PostedAfterArming(s, s.ledger[i])
  }

  ghost predicate Chained(s: Sys) {
    TimersCarry(s) && RunsCarry(s) && OneCarrier(s) && StartsInOrder(s) && LedgerAfterArming(s)
  }

  lemma UpToGrows(k: nat)
    ensures UpTo(k) + [k] == UpTo(k + 1)
  {
  }

  lemma FireKeepsChains(s: Sys, t: nat, now: nat)
    requires Chained(s)
    ensures Chained(FireTimer(s, t, now))
  {
    if t in s.timers && now >= s.timers[t].at {
      var after := FireTimer(s, t, now);
      var timer := s.timers[t];
      assert TimerCarries(s, timer);
      UpToGrows(timer.attempt);
      assert OneCarrier(after) by { FireKeepsCarriers(s, t, now); }
      forall u | u in after.timers
        ensures TimerCarries(after, after.timers[u])
      {
        assert TimerCarries(s, s.timers[u]);
        assert Carried(s, u) != Carried(s, t);
      }
      forall i | i in after.expiry
        ensures EnteredCarries(after, after.expiry[i]) && ArmedBefore(after, after.expiry[i])
      {
        if i != s.next {
          assert EnteredCarries(s, s.expiry[i]) && ArmedBefore(s, s.expiry[i]);
          assert Carried(s, t).Some? && Carried(s, i) != Carried(s, t);
        }
      }
      assert forall p :: PostedAfterArming(s, p) ==> PostedAfterArming(after, p);
    }
  }

  lemma FireKeepsCarriers(s: Sys, t: nat, now: nat)
    requires OneCarrier(s)
    ensures OneCarrier(FireTimer(s, t, now))
  {
    if t in s.timers && now >= s.timers[t].at {
      var after := FireTimer(s, t, now);
      // The fresh run takes over the chain of the timer, and nothing else moves.
      assert Carried(after, s.next) == Carried(s, t) && Carried(after, t) == None && Carried(s, s.next) == None;
      assert forall k: nat :: k != s.next && k != t ==> Carried(after, k) == Carried(s, k);
    }
  }

  lemma ArmKeepsCarriers(s: Sys, run: nat, asked: nat, now: nat)
    requires OneCarrier(s)
    ensures OneCarrier(ArmSuccessor(s, run, asked, now))
  {
    if run in s.expiry && s.expiry[run].Entered? {
      var after := ArmSuccessor(s, run, asked, now);
      assert Carried(after, run) == None && Carried(s, s.next) == None;
      assert Carried(after, s.next) == Carried(s, run) || Carried(after, s.next) == None;
      assert forall k: nat :: k != s.next && k != run ==> Carried(after, k) == Carried(s, k);
    }
  }

  lemma ArmKeepsChains(s: Sys, run: nat, asked: nat, now: nat)
    requires Chained(s)
    ensures Chained(ArmSuccessor(s, run, asked, now))
  {
    if run in s.expiry && s.expiry[run].Entered? {
      var after := ArmSuccessor(s, run, asked, now);
      assert EnteredCarries(s, s.expiry[run]);
      assert OneCarrier(after) by { ArmKeepsCarriers(s, run, asked, now); }
      forall t | t in after.timers
        ensures TimerCarries(after, after.timers[t])
      {
        if t in s.timers { assert TimerCarries(s, s.timers[t]); }
      }
      forall i | i in after.expiry
        ensures EnteredCarries(after, after.expiry[i]) && ArmedBefore(after, after.expiry[i])
      {
        assert EnteredCarries(s, s.expiry[i]) && ArmedBefore(s, s.expiry[i]);
      }
      assert forall p :: PostedAfterArming(s, p) ==> PostedAfterArming(after, p);
    }
  }

  lemma StepKeepsChains(s: Sys, e: Event)
    requires Chained(s)
    ensures Chained(Step(s, e))
  {
    if e.now < MAX_SAFE_INTEGER {
      match e
      case Fire(now, t) => FireKeepsChains(s, t, now);
      case Arm(now, run, asked) => ArmKeepsChains(s, run, asked, now);
      case StopCall(_, _) => StopKeepsChains(s, e);
      case ClaimUnused(now, run) => ClaimRunKeepsChains(s, run, now);
      case PostRelease(_, run, landed, answer) => ReleaseKeepsChains(s, run, landed, answer);
      case Prove(_, run, blocks, matches) => ProveKeepsChains(s, run, blocks, matches);
      case ClaimPaid(now, run, matches) => ClaimPaidKeepsChains(s, run, matches, now);
      case PostRemedy(_, run, landed, answer) => PostPaidKeepsChains(s, run, landed, answer);
      case FinishUnused(_, _, _) => EndRunKeepsChains(s, e);
      case Crash(_, _) => EndRunKeepsChains(s, e);
      case Other(now, w) => OtherKeepsChains(s, ApplyWriter(s.rows, w, now));
      case Verify(_, run, verified) => VerifyKeepsChains(s, run, verified);
      case FinishPaid(now, run, ok) => FinishPaidKeepsChains(s, run, ok, now);
      case RequestRemedy(_, _) => RequestKeepsChains(s, e);
    }
  }

  lemma StopKeepsChains(s: Sys, e: Event)
    requires Chained(s) && e.StopCall?
    ensures Chained(Step(s, e))
  {
    if e.now < MAX_SAFE_INTEGER {
      var after := Step(s, e);
      assert UpTo(0) == [];
      assert s.next !in s.starts;
      forall t | t in after.timers
        ensures TimerCarries(after, after.timers[t])
      {
        if t in s.timers { assert TimerCarries(s, s.timers[t]); }
      }
      forall i | i in after.expiry
        ensures EnteredCarries(after, after.expiry[i]) && ArmedBefore(after, after.expiry[i])
      {
        assert EnteredCarries(s, s.expiry[i]) && ArmedBefore(s, s.expiry[i]);
      }
      assert OneCarrier(after) by { StopKeepsCarriers(s, after, e.at); }
      assert forall p :: PostedAfterArming(s, p) ==> PostedAfterArming(after, p);
    }
  }

  lemma StopKeepsCarriers(s: Sys, after: Sys, at: nat)
    requires OneCarrier(s) && TimersCarry(s) && RunsCarry(s)
    requires after == s.(timers := s.timers[s.next := Timer(s.next, 0, at)], next := s.next + 1)
    ensures OneCarrier(after)
  {
    assert Carried(after, s.next) == Some(s.next);
    forall k: nat | k != s.next
      ensures Carried(after, k) == Carried(s, k) && Carried(s, k) != Some(s.next)
    {
      if k in s.timers { assert TimerCarries(s, s.timers[k]); }
      else if k in s.expiry { assert EnteredCarries(s, s.expiry[k]); }
    }
  }

  /** A step that moves no timer and starts no run keeps every chain if its new postings were armed for. */
  lemma FrameKeepsChains(s: Sys, after: Sys)
    requires Chained(s)
    requires after.timers == s.timers && after.starts == s.starts && after.armed == s.armed && after.next >= s.next
    requires forall i :: i in after.expiry ==> i in s.expiry && SameChain(s.expiry[i], after.expiry[i])
    requires s.ledger <= after.ledger
    requires forall k :: |s.ledger| <= k < |after.ledger| ==> PostedAfterArming(s, after.ledger[k])
    ensures Chained(after)
  {
    forall t | t in after.timers
      ensures TimerCarries(after, after.timers[t])
    {
      assert TimerCarries(s, s.timers[t]);
    }
    forall i | i in after.expiry
      ensures EnteredCarries(after, after.expiry[i]) && ArmedBefore(after, after.expiry[i])
    {
      assert EnteredCarries(s, s.expiry[i]) && ArmedBefore(s, s.expiry[i]);
    }
    assert OneCarrier(after) by {
      forall k: nat
        ensures Carried(after, k) == Carried(s, k) || Carried(after, k) == None
      {
        if k in after.expiry { assert SameChain(s.expiry[k], after.expiry[k]); }
      }
    }
    forall k | 0 <= k < |after.ledger|
      ensures PostedAfterArming(after, after.ledger[k])
    {
      assert PostedAfterArming(s, after.ledger[k]);
    }
  }

  predicate SameChain(before: ExpiryRun, after: ExpiryRun) {
    before.Entered? == after.Entered? && before.chain == after.chain && before.attempt == after.attempt
  }

  lemma ClaimRunKeepsChains(s: Sys, run: nat, now: nat)
    requires Chained(s)
    ensures Chained(ClaimRun(s, run, now))
  {
    FrameKeepsChains(s, ClaimRun(s, run, now));
  }

  /** A posting is made by a run whose successor was armed. */
  lemma ReleaseKeepsChains(s: Sys, run: nat, landed: bool, answer: Option<seq<string>>)
    requires Chained(s)
    ensures Chained(ReleaseOnLedger(s, run, landed, answer))
  {
    if run in s.expiry { assert ArmedBefore(s, s.expiry[run]); }
    FrameKeepsChains(s, ReleaseOnLedger(s, run, landed, answer));
  }

  lemma ProveKeepsChains(s: Sys, run: nat, blocks: seq<Block>, matches: bool)
    requires Chained(s)
    ensures Chained(ProveUnused(s, run, blocks, matches))
  {
    FrameKeepsChains(s, ProveUnused(s, run, blocks, matches));
  }

  lemma EndRunKeepsChains(s: Sys, e: Event)
    requires Chained(s) && (e.FinishUnused? || e.Crash?)
    ensures Chained(Step(s, e))
  {
    FrameKeepsChains(s, Step(s, e));
  }

  lemma ClaimPaidKeepsChains(s: Sys, run: nat, matches: bool, now: nat)
    requires Chained(s)
    ensures Chained(ClaimPaidRun(s, run, matches, now))
  {
    FrameKeepsChains(s, ClaimPaidRun(s, run, matches, now));
  }

  lemma PostPaidKeepsChains(s: Sys, run: nat, landed: bool, answer: Option<seq<string>>)
    requires Chained(s)
    ensures Chained(RemedyOnLedger(s, run, landed, answer))
  {
    FrameKeepsChains(s, RemedyOnLedger(s, run, landed, answer));
  }

  lemma VerifyKeepsChains(s: Sys, run: nat, verified: bool)
    requires Chained(s)
    ensures Chained(VerifyPayment(s, run, verified))
  {
    FrameKeepsChains(s, VerifyPayment(s, run, verified));
  }

  lemma FinishPaidKeepsChains(s: Sys, run: nat, ok: bool, now: nat)
    requires Chained(s)
    ensures Chained(FinishPaidRun(s, run, ok, now))
  {
    FrameKeepsChains(s, FinishPaidRun(s, run, ok, now));
  }

  lemma RequestKeepsChains(s: Sys, e: Event)
    requires Chained(s) && e.RequestRemedy?
    ensures Chained(Step(s, e))
  {
    FrameKeepsChains(s, Step(s, e));
  }

  lemma OtherKeepsChains(s: Sys, rows: Rows)
    requires Chained(s)
    ensures Chained(s.(rows := rows))
  {
    FrameKeepsChains(s, s.(rows := rows));
  }

  lemma {:induction false} RunIsChained(s: Sys, events: seq<Event>)
    requires Initial(s)
    ensures Chained(Run(s, events))
  {
    if events != [] {
      RunIsChained(s, events[..|events| - 1]);
      StepKeepsChains(Run(s, events[..|events| - 1]), events[|events| - 1]);
    }
  }

  /** A chain starts the recover runs 0, 1, .. in order, each once, and at most five of them. */
  lemma {:induction false} AtMostFiveRuns(s: Sys, events: seq<Event>, chain: nat)
    requires Initial(s)
    ensures var starts := StartsOf(Run(s, events), chain);
            |starts| <= 5 && forall i :: 0 <= i < |starts| ==> starts[i] == i
  {
    RunIsChained(s, events);
  }

  /** A run that reached the ledger had armed its successor, so attempt 4 never posts. */
  lemma {:induction false} SuccessorArmedBeforeLedger(s: Sys, events: seq<Event>, k: nat)
    requires Initial(s) && k < |Run(s, events).ledger| && Run(s, events).ledger[k].Release?
    ensures var p := Run(s, events).ledger[k];
            p.attempt <= 3 && (p.chain, p.attempt + 1) in Run(s, events).armed
  {
    RunIsChained(s, events);
    assert PostedAfterArming(Run(s, events), Run(s, events).ledger[k]);
  }

  /** The last run of a chain arms nothing and only records manual review, keeping any lease. */
  lemma LastAttemptRecordsManualReview(s: Sys, run: nat, asked: nat, now: nat)
    requires run in s.expiry && s.expiry[run].Entered? && s.expiry[run].attempt >= 4
    requires s.rows.call.Some? && s.rows.call.value.state.ReconciliationRequired?
    requires !HeldForUnknownSettlement(s.rows.call.value)
    ensures var after := ArmSuccessor(s, run, asked, now);
            && after.timers == s.timers && run !in after.expiry && after.ledger == s.ledger
            && after.rows.call.Some? && after.rows.call.value.recon.Some?
            && after.rows.call.value.recon.value.disposition == ManualReview
            && after.rows.call.value.recon.value.reason == RecoveryFailed
            && (s.rows.call.value.recon.Some?
                ==> after.rows.call.value.recon.value.leaseOwner == s.rows.call.value.recon.value.leaseOwner
                    && after.rows.call.value.recon.value.leaseExpiresAt == s.rows.call.value.recon.value.leaseExpiresAt)
            && after.rows == s.rows.(call := after.rows.call)
            && after.rows.call.value == s.rows.call.value.(recon := after.rows.call.value.recon)
  {
  }

  /** A successor is due one, two, four or eight minutes after it was asked for, or at once if that has passed. */
  lemma SuccessorDelay(r: Rows, attempt: nat, asked: nat, now: nat)
    ensures var at := Expiry.Schedule(r, attempt + 1, asked + Expiry.SuccessorGap(attempt), now).1;
            at.Some? ==> attempt <= 3 && now <= at.value && asked + 60000 * [1, 2, 4, 8][attempt] <= at.value
                         && (at.value == now || at.value == asked + 60000 * [1, 2, 4, 8][attempt])
  {
    assert Pow2(0) == 1 && Pow2(1) == 2;
    assert Pow2(2) == 4;
    assert Pow2(3) == 2 * Pow2(2);
  }

  /** Neither claim nor schedule touches a Call held for an unknown settlement. */
  lemma HoldIsUntouched(r: Rows, p: Expiry.ExpiryProofArgs, attempt: nat, runAt: nat, now: nat)
    requires r.call.Some? && HeldForUnknownSettlement(r.call.value)
    ensures Expiry.Claim(r, p, now) == (r, None)
    ensures Expiry.Schedule(r, attempt, runAt, now) == (r, None)
  {
  }

  // ---- what recovery cannot repair ----

  /** Rows under a lease whose attempt turned out to be paid. */
  predicate StuckRows(r: Rows, c: Claimant) {
    && c.ByExpiry? && r.call.Some? && Safety.Leased(r.call.value, c)
    && c.key in r.attempts && r.attempts[c.key].settlement == Some(Settled) && r.attempts[c.key].evidence.Some?
  }

  /** The lease is an expired-unused one over an attempt that turned out to be paid, or the ordinary release came first. */
  predicate Stuck(s: Sys) {
    && Safety.Fenced(s) && DistinctNonces(s.rows) && s.claims != [] && s.claims[0].ByExpiry?
    && (StuckRows(s.rows, s.claims[0]) || Safety.ReleasedOrdinarily(s.rows))
  }

  lemma StuckWriter(r: Rows, w: Writer, now: nat, c: Claimant)
    requires StuckRows(r, c) && now < MAX_SAFE_INTEGER
    ensures StuckRows(ApplyWriter(r, w, now), c) || Safety.ReleasedOrdinarily(ApplyWriter(r, w, now))
  {
  }

  lemma ReleasedWriter(r: Rows, w: Writer, now: nat)
    requires Safety.ReleasedOrdinarily(r)
    ensures Safety.ReleasedOrdinarily(ApplyWriter(r, w, now))
  {
  }

  lemma StuckArm(s: Sys, run: nat, asked: nat, now: nat, c: Claimant)
    ensures var after := ArmSuccessor(s, run, asked, now).rows;
            && (StuckRows(s.rows, c) ==> StuckRows(after, c))
            && (Safety.ReleasedOrdinarily(s.rows) ==> Safety.ReleasedOrdinarily(after))
  {
  }

  lemma StuckClaim(s: Sys, run: nat, now: nat)
    requires Stuck(s) && now < MAX_SAFE_INTEGER
    ensures ClaimRun(s, run, now).rows == s.rows
  {
    if run in s.expiry && s.expiry[run].Proved? {
      Safety.ExpiryClaimOnFence(s.rows, s.expiry[run].proof, now, s.claims[0]);
    }
  }

  /** The expired-unused lease keeps every remedy claim out, and no remedy run holds the Call. */
  lemma StuckPaid(s: Sys, run: nat, matches: bool, ok: bool, now: nat)
    requires Stuck(s) && now < MAX_SAFE_INTEGER
    ensures ClaimPaidRun(s, run, matches, now).rows == s.rows && FinishPaidRun(s, run, ok, now).rows == s.rows
  {
    if run in s.remedy {
      assert Safety.RemedyRunAgrees(s.remedy[run], Safety.Winner(s));
      if s.remedy[run].Verified? { Safety.RemedyClaimOnFence(s.rows, s.remedy[run].id, now, s.claims[0]); }
    }
  }

  lemma StuckFinish(s: Sys, run: nat, ok: bool, now: nat)
    requires Stuck(s)
    ensures FinishRun(s, run, ok, now).rows == s.rows
  {
  }

  lemma ClaimsGrow(s: Sys, e: Event)
    ensures s.claims <= Step(s, e).claims
  {
  }

  lemma StuckExpiryStep(s: Sys, e: Event)
    requires Stuck(s) && (e.Arm? || e.ClaimUnused? || e.FinishUnused?) && e.now < MAX_SAFE_INTEGER
    ensures StuckRows(Step(s, e).rows, s.claims[0]) || Safety.ReleasedOrdinarily(Step(s, e).rows)
  {
    match e
    case Arm(now, run, asked) => StuckArm(s, run, asked, now, s.claims[0]);
    case ClaimUnused(now, run) => StuckClaim(s, run, now);
    case FinishUnused(now, run, ok) => StuckFinish(s, run, ok, now);
  }

  lemma StuckPaidStep(s: Sys, e: Event)
    requires Stuck(s) && (e.ClaimPaid? || e.FinishPaid?) && e.now < MAX_SAFE_INTEGER
    ensures Step(s, e).rows == s.rows
  {
    match e
    case ClaimPaid(now, run, matches) => StuckPaid(s, run, matches, true, now);
    case FinishPaid(now, run, ok) => StuckPaid(s, run, true, ok, now);
  }

  /** No event but a schedule and another writer changes the rows. */
  lemma StuckRunStep(s: Sys, e: Event)
    requires Stuck(s) && !e.Other? && e.now < MAX_SAFE_INTEGER
    ensures StuckRows(Step(s, e).rows, s.claims[0]) || Safety.ReleasedOrdinarily(Step(s, e).rows)
  {
    if e.Arm? || e.ClaimUnused? || e.FinishUnused? { StuckExpiryStep(s, e); }
    else if e.ClaimPaid? || e.FinishPaid? { StuckPaidStep(s, e); }
    else { Safety.QuietStep(s, e); }
  }

  lemma StuckStep(s: Sys, e: Event)
    requires Stuck(s)
    ensures Stuck(Step(s, e))
  {
    Safety.StepKeepsFence(s, e);
    Safety.StepKeepsNonces(s, e);
    ClaimsGrow(s, e);
    if e.now < MAX_SAFE_INTEGER {
      if !e.Other? { StuckRunStep(s, e); }
      else if StuckRows(s.rows, s.claims[0]) { StuckWriter(s.rows, e.writer, e.now, s.claims[0]); }
      else { ReleasedWriter(s.rows, e.writer, e.now); }
    }
  }

  /**
   Once the attempt under an expired-unused lease is observed as settled, no run can
   ever close the Call: the finish refuses it and the lease keeps every remedy out.
   */
  lemma {:induction false} SettledUnderExpiryLeaseNeverCloses(s: Sys, events: seq<Event>)
    requires Stuck(s)
    ensures Stuck(Run(s, events)) && Run(s, events).claims[0] == s.claims[0]
  {
    if events != [] {
      SettledUnderExpiryLeaseNeverCloses(s, events[..|events| - 1]);
      StuckStep(Run(s, events[..|events| - 1]), events[|events| - 1]);
      ClaimsGrow(Run(s, events[..|events| - 1]), events[|events| - 1]);
    }
  }

  /** Refs of the right number for a refund of this Call. */
  function SomeRefs(c: Call): (refs: seq<string>)
    ensures |refs| == RefundEntries(c)
  {
    seq(RefundEntries(c), i => "ref")
  }

  /**
   Exactly when an expired-unused lease can still be closed: the Call is stopped for the
   claimed attempt, the obligation exists, the attempt is the Call's and not settled, the Call is still open, and its reservation
   was not already settled.
   */
  lemma ExpiryLeaseClosesIff(r: Rows, w: Claimant)
    requires r.call.Some? && w.ByExpiry? && IsSha256(w.digest)
    requires Safety.Leased(r.call.value, w) && Safety.PinHolds(r, w) && DistinctNonces(r)
    ensures (exists refs, ok, t :: Expiry.Finish(r, w.digest, refs, ok, t).1.FinishCompleted?)
            <==> && r.call.value.result.key == w.key && r.obligation.Some? && r.attempts[w.key].forCall
                 && r.attempts[w.key].settlement != Some(Settled)
                 && OpenForRefund(r.call.value)
                 && !Expiry.SpendConflicts(r, w.key, w.digest)
  {
    var refs := SomeRefs(r.call.value);
    if r.call.value.result.key == w.key && r.obligation.Some? && r.attempts[w.key].forCall
       && r.attempts[w.key].settlement != Some(Settled) && OpenForRefund(r.call.value)
       && !Expiry.SpendConflicts(r, w.key, w.digest) {
      assert Expiry.Finish(r, w.digest, refs, true, 0).1.FinishCompleted?;
    }
  }
}
