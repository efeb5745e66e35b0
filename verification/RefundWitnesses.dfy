/**
 A run that exists: from a plain stopped Call an expired-unused claim is reached, and
 then the state that recovery cannot repair, a lease over an attempt that turned out
 to be paid.
 */
module RefundWitnesses {
  import opened Wrappers
  import opened LeaseOwners
  import opened RefundRows
  import opened RefundProtocol
  import Expiry = ExpiryMutations
  import Remedy = RemedyMutations
  import Writers = LeaseWriters
  import Safety = RefundSafety
  import Retries = RefundRetries

  /** One more event of a run. */
  lemma RunExtends(s: Sys, events: seq<Event>, e: Event)
    ensures Run(s, events + [e]) == Step(Run(s, events), e)
  {
    assert (events + [e])[..|events|] == events;
  }

  /** A run goes on from where its first part ended. */
  lemma {:induction false} RunContinues(s: Sys, events: seq<Event>, later: seq<Event>)
    ensures Run(s, events + later) == Run(Run(s, events), later)
  {
    if later == [] {
      assert events + later == events;
    } else {
      var init, e := later[..|later| - 1], later[|later| - 1];
      RunContinues(s, events, init);
      assert events + later == (events + init) + [e] && init + [e] == later;
      RunExtends(s, events + init, e);
      RunExtends(Run(s, events), init, e);
    }
  }

  /** A run read from its first event. */
  lemma RunFirst(s: Sys, events: seq<Event>)
    requires events != []
    ensures Run(s, events) == Run(Step(s, events[0]), events[1..])
  {
    assert [events[0]] + events[1..] == events && [] + [events[0]] == [events[0]];
    RunContinues(s, [events[0]], events[1..]);
    RunExtends(s, [], events[0]);
  }

  const KEY := AttemptKey("attempt", 1)
  const NO_RESPONSE := ResponseFacts(None, None, None, None, None)
  const SAFE_BLOCK := Block("0xb10c", 7, 7)
  const PIN := ExpiryProof(KEY, "nonce", [SAFE_BLOCK])

  /** A submitted attempt whose authorization has run out. */
  function StoppedAttempt(): Attempt {
    Attempt(true, true, PaymentTerms(None, None, "call", None, None, None, "1", "payee"), true,
            Some("identity"), Some("nonce"), Some("payer"), Some(0), Some("reservation"), Some(0), PossiblySubmitted,
            None, NO_RESPONSE, None, None, {}, None, None)
  }

  const QUOTED := Receipt(true, ReceiptOpen, RefundUnknown, NoLoss, OtherEvidence("quote"), None, None, None)

  function StoppedCall(): Call {
    Call(ReconciliationRequired, DispatchReconciliation, OutcomeUnknown, NeedsReconciliation(KEY, Some(QUOTED)),
         Some(["reservation"]), None, None, None, None, None, true, 0)
  }

  function Stopped(): Sys {
    Sys(Rows(Some(StoppedCall()), map[KEY := StoppedAttempt()], Some(Obligation(Held, None)), None, []),
        map[], map[], map[], 0, [], [], map[], {})
  }

  function ToClaim(): seq<Event> {
    [StopCall(0, 0), Fire(0, 0), Arm(0, 1, 0), Prove(0, 1, [SAFE_BLOCK], true), ClaimUnused(0, 1)]
  }

  /** The stopped Call after a won claim. */
  function Claimed(): Sys {
    Sys(Stopped().rows.(
          call := Some(StoppedCall().(recon := Some(Expiry.ExpiryLease(StoppedCall(), "nonce")))),
          attempts := Stopped().rows.attempts[KEY := StoppedAttempt().(evidence := Some(PIN))]),
        map[1 := Pinned(0, 0, PIN)], map[], map[2 := Timer(0, 1, 60000)], 3, [],
        [ByExpiry(KEY, "nonce", PIN)], map[0 := [0]], {(0, 1)})
  }

  /** The first run has started. */
  function Started(): Sys { Stopped().(expiry := map[1 := Entered(0, 0)], next := 2, starts := map[0 := [0]]) }

  /** It has armed its successor. */
  function Armed1(): Sys {
    Started().(expiry := map[1 := Armed(0, 0)], timers := map[2 := Timer(0, 1, 60000)], next := 3, armed := {(0, 1)})
  }

  lemma RunStarts()
    ensures Step(Step(Stopped(), StopCall(0, 0)), Fire(0, 0)) == Started()
  {
    var a := Step(Stopped(), StopCall(0, 0));
    assert a.timers == map[0 := Timer(0, 0, 0)];
    assert Remove(a.timers, 0) == map[] && StartsOf(a, 0) + [0] == [0];
  }

  lemma RunArms()
    ensures Step(Started(), Arm(0, 1, 0)) == Armed1()
  {
    assert Pow2(0) == 1;
  }

  /** It has proved that the authorization ran out unused. */
  function Proved1(): Sys {
    Armed1().(expiry := map[1 := Proved(0, 0, Expiry.ExpiryProofArgs(KEY, "identity", "nonce", PIN))])
  }

  lemma RunProves()
    ensures Step(Armed1(), Prove(0, 1, [SAFE_BLOCK], true)) == Proved1()
  {
    assert Step(Armed1(), Prove(0, 1, [SAFE_BLOCK], true)).expiry == Proved1().expiry;
  }

  lemma RunClaims()
    ensures Step(Proved1(), ClaimUnused(0, 1)) == Claimed()
  {
    assert Expiry.Claim(Stopped().rows, Proved1().expiry[1].proof, 0) == (Claimed().rows, Some(PIN));
    assert ClaimRun(Proved1(), 1, 0).expiry == Claimed().expiry;
  }

  lemma StoppedIsInitial()
    ensures Initial(Stopped())
  {
  }

  /** Five events lead from a stopped Call to a won claim. */
  lemma ClaimIsReached()
    ensures Run(Stopped(), ToClaim()) == Claimed()
  {
    RunStarts();
    RunArms();
    RunProves();
    RunClaims();
    var s, e := Stopped(), ToClaim();
    RunFirst(s, e);
    RunFirst(Step(s, e[0]), e[1..]);
    RunFirst(Started(), e[2..]);
    RunFirst(Armed1(), e[3..]);
    RunFirst(Proved1(), e[4..]);
    assert e[1..][1..] == e[2..] && e[2..][1..] == e[3..] && e[3..][1..] == e[4..] && e[4..][1..] == [];
  }

  // ---- an attempt that turns out to be paid ----

  /** The late observation that the payment of the leased attempt was settled. */
  function Paid(): Event {
    Other(0, ObserveAttempt(KEY, StoppedAttempt().(evidence := Some(PIN), settlement := Some(Settled))))
  }

  /** The leased Call whose attempt is settled. */
  function PaidUnderLease(): Sys {
    Claimed().(rows := Claimed().rows.(attempts := Claimed().rows.attempts[KEY := Paid().writer.after]))
  }

  lemma PaymentIsObserved()
    ensures Step(Claimed(), Paid()) == PaidUnderLease()
  {
  }

  /** Some run makes exactly this happen: recovery claims the Call, then its attempt is observed as settled. */
  lemma StuckIsReached() returns (s: Sys, events: seq<Event>)
    ensures Initial(s) && Retries.Stuck(Run(s, events))
    ensures Retries.StuckRows(Run(s, events).rows, Run(s, events).claims[0])
  {
    StoppedIsInitial();
    ClaimIsReached();
    PaymentIsObserved();
    s, events := Stopped(), ToClaim() + [Paid()];
    RunExtends(s, ToClaim(), Paid());
    Safety.RunIsFenced(s, events);
  }

  /**
   From any start: once a run has the attempt under an expired-unused lease observed as
   settled, no refund closes the Call whatever follows: it stays in reconciliation under
   that lease, or its ordinary release came first.
   */
  lemma SettledUnderLeaseNeverCloses(s: Sys, events: seq<Event>, later: seq<Event>)
    requires Initial(s)
    requires var end := Run(s, events);
             && end.claims != [] && end.claims[0].ByExpiry?
             && end.rows.call.Some? && end.rows.call.value.state.ReconciliationRequired?
             && end.claims[0].key in end.rows.attempts
             && end.rows.attempts[end.claims[0].key].settlement == Some(Settled)
    ensures var w := Run(s, events).claims[0];
            var rows := Run(s, events + later).rows;
            && rows.call.Some? && !rows.call.value.state.Refused?
            && (Safety.ReleasedOrdinarily(rows)
                || (rows.call.value.state.ReconciliationRequired? && LeasedTo(rows.call.value, Safety.OwnerFor(w))))
  {
    RunContinues(s, events, later);
    Safety.RunIsFenced(s, events);
    Retries.SettledUnderExpiryLeaseNeverCloses(Run(s, events), later);
  }
}
