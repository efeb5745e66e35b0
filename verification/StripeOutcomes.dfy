/**
 What a finished run makes of its row: which events can become applied and which
 ignored over any run of the inbox, and the outcome of one run column by column.
 */
module StripeOutcomes {
  import opened Wrappers
  import opened StripeInbox
  import opened StripeProtocol

  /** No call that comes before applying refuses the event; a dispute makes only the first of them. */
  predicate NothingRefuses(kind: EventKind, x: Externals) {
    && x.durable.None?
    && (!kind.DisputeEvent? ==> x.config.None? && x.context.None? && x.readback.None?)
  }

  // ---- applied and ignored are what the answers say ----

  /** Applying a payment event was never answered "ignored". */
  predicate NeverAnsweredIgnored(events: seq<Event>, id: string) {
    events == []
    || (&& NeverAnsweredIgnored(events[..|events| - 1], id)
        && var s, e := Run(EMPTY, events[..|events| - 1]), events[|events| - 1];
        && (e.Answer? && e.work in s.works && s.works[e.work].eventId == id && e.x.applied.ApplyAccepted?
            ==> !e.x.applied.status.WasIgnored?))
  }

  /** What a run has read or returned agrees with what its row may become. */
  predicate PhaseAgrees(phase: Phase, row: Row, ignorable: bool) {
    match phase
    case Reading(seen) =>
      && seen.Some? && seen.value.event == row.event
      && (seen.value.state.Applied? ==> row.state.Applied?) && (seen.value.state.Ignored? ==> row.state.Ignored?)
    case Returned(Accepted(status, _)) =>
      if row.event.kind.AccountEvent? then status.WasIgnored? || row.state.Ignored?
      else !ignorable ==> !status.WasIgnored?
    case _ => true
  }

  ghost predicate RowAgrees(s: Inbox, id: string, ignorable: bool)
    requires id in s.rows
  {
    var row := s.rows[id];
    && (row.event.kind.AccountEvent? ==> !row.state.Applied?)
    && (!row.event.kind.AccountEvent? && !ignorable ==> !row.state.Ignored?)
    && (forall w :: w in s.works && s.works[w].eventId == id ==> PhaseAgrees(s.works[w].phase, row, ignorable))
  }

  ghost predicate Agrees(s: Inbox, id: string, ignorable: bool) { id in s.rows ==> RowAgrees(s, id, ignorable) }

  lemma DeliverAgrees(s: Inbox, e: Event, id: string, ignorable: bool)
    requires Holds(s) && Agrees(s, id, ignorable) && e.Deliver?
    ensures Agrees(Step(s, e), id, ignorable)
  {
    IngestAddsIdleWork(s, e.admitted, e.destination, e.event, e.correlationId, e.now);
    if id in s.rows {
      assert RowHolds(s, id, s.rows[id]);
      IngestMovesRow(s, e.admitted, e.destination, e.event, e.correlationId, e.now, id);
      DeliverMovesRow(s, e.admitted, e.destination, e.event, e.correlationId, e.now, id);
    } else {
      assert forall w :: w in s.works ==> s.works[w].eventId != id;
    }
  }

  lemma PhaseChangeAgrees(s: Inbox, w: nat, phase: Phase, id: string, ignorable: bool)
    requires Agrees(s, id, ignorable) && w in s.works
    requires id in s.rows && s.works[w].eventId == id ==> PhaseAgrees(phase, s.rows[id], ignorable)
    ensures Agrees(SetPhase(s, w, phase), id, ignorable)
  {
  }

  lemma AnswerAgrees(s: Inbox, w: nat, x: Externals, now: nat, id: string, ignorable: bool)
    requires Holds(s) && Agrees(s, id, ignorable)
    requires !ignorable && w in s.works && s.works[w].eventId == id && x.applied.ApplyAccepted? ==> !x.applied.status.WasIgnored?
    ensures Agrees(AnswerRun(s, w, x, now), id, ignorable)
  {
    if w in s.works && s.works[w].phase.Reading? {
      AnswerMovesPhase(s, w, x, now);
      assert s.works[w].eventId in s.rows;
      if s.works[w].eventId == id { assert PhaseAgrees(s.works[w].phase, s.rows[id], ignorable); }
      PhaseChangeAgrees(s, w, PhaseAfter(s.works[w], x), id, ignorable);
    }
  }

  lemma RunPhaseAgrees(s: Inbox, e: Event, id: string, ignorable: bool)
    requires Holds(s) && Agrees(s, id, ignorable) && (e.ReadRow? || e.ReturnRetry? || e.Rerun?)
    ensures Agrees(Step(s, e), id, ignorable)
  {
    if e.work in s.works {
      assert s.works[e.work].eventId in s.rows;
      if Step(s, e) != s { PhaseChangeAgrees(s, e.work, Step(s, e).works[e.work].phase, id, ignorable); }
    }
  }

  /** A completion for another event leaves the row alone, and its own leaves it as its run answered. */
  lemma CompletionMovesRow(s: Inbox, w: nat, result: Completion, now: nat, id: string)
    requires Holds(s) && w in s.works && id in s.rows
    ensures var after, row := Completing(s, w, result, now), s.rows[id];
            && id in after.rows && after.rows[id].event == row.event
            && (forall v :: v in after.works ==> v in s.works && after.works[v] == s.works[v])
            && (s.works[w].eventId != id ==> after.rows[id] == row)
            && (after.rows[id].state.Applied? && !row.state.Applied? ==>
                  s.works[w].eventId == id && result.Success? && result.result.Accepted? && !result.result.status.WasIgnored?)
            && (after.rows[id].state.Ignored? && !row.state.Ignored? ==>
                  s.works[w].eventId == id && result.Success? && result.result.Accepted? && result.result.status.WasIgnored?)
            && ((row.state.Applied? || row.state.Ignored?) ==> after.rows[id].state == row.state)
  {
    assert RowHolds(s, id, s.rows[id]);
  }

  lemma CompletionAgrees(s: Inbox, w: nat, result: Completion, now: nat, id: string, ignorable: bool)
    requires Holds(s) && Agrees(s, id, ignorable) && w in s.works
    requires result.Success? ==> s.works[w].phase == Returned(result.result)
    ensures Agrees(Completing(s, w, result, now), id, ignorable)
  {
    if id in s.rows {
      CompletionMovesRow(s, w, result, now, id);
      if s.works[w].eventId == id { assert PhaseAgrees(s.works[w].phase, s.rows[id], ignorable); }
    }
  }

  lemma FireAgrees(s: Inbox, t: nat, now: nat, id: string, ignorable: bool)
    requires Holds(s) && Agrees(s, id, ignorable)
    ensures Agrees(Step(s, Fire(now, t)), id, ignorable)
  {
  }

  lemma StepAgrees(s: Inbox, e: Event, id: string, ignorable: bool)
    requires Holds(s) && Agrees(s, id, ignorable)
    requires !ignorable && e.Answer? && e.work in s.works && s.works[e.work].eventId == id && e.x.applied.ApplyAccepted?
             ==> !e.x.applied.status.WasIgnored?
    ensures Agrees(Step(s, e), id, ignorable)
  {
    match e
    case Deliver(_, _, _, _, _) => DeliverAgrees(s, e, id, ignorable);
    case Answer(now, w, x) => AnswerAgrees(s, w, x, now, id, ignorable);
    case Fire(now, t) => FireAgrees(s, t, now, id, ignorable);
    case Finish(now, w) =>
      if w in s.works && s.works[w].phase.Returned? {
        CompletionAgrees(s, w, Success(s.works[w].phase.result), now, id, ignorable);
      }
    case GiveUp(now, w, canceled) =>
      if w in s.works { CompletionAgrees(s, w, if canceled then WorkCanceled else WorkFailed, now, id, ignorable); }
    case _ => RunPhaseAgrees(s, e, id, ignorable);
  }

  lemma {:induction false} RunAgrees(events: seq<Event>, id: string, ignorable: bool)
    requires ignorable || NeverAnsweredIgnored(events, id)
    ensures Agrees(Run(EMPTY, events), id, ignorable)
  {
    if events != [] {
      RunAgrees(events[..|events| - 1], id, ignorable);
      RunHolds(events[..|events| - 1]);
      StepAgrees(Run(EMPTY, events[..|events| - 1]), events[|events| - 1], id, ignorable);
    }
  }

  /** Over any run, the row of an account event is never applied. */
  lemma {:induction false} AccountEventsAreNotApplied(events: seq<Event>, id: string)
    requires id in Run(EMPTY, events).rows && Run(EMPTY, events).rows[id].event.kind.AccountEvent?
    ensures !Run(EMPTY, events).rows[id].state.Applied?
  {
    RunAgrees(events, id, true);
  }

  /** A payment event is never ignored over any run in which applying it is never answered "ignored". */
  lemma {:induction false} PaymentEventsAreNotIgnored(events: seq<Event>, id: string)
    requires NeverAnsweredIgnored(events, id)
    requires id in Run(EMPTY, events).rows && !Run(EMPTY, events).rows[id].event.kind.AccountEvent?
    ensures !Run(EMPTY, events).rows[id].state.Ignored?
  {
    RunAgrees(events, id, false);
  }

  // ---- one run, column by column ----

  /** The row of a finished run: its outcome, its reference and its times, and nothing else. */
  predicate Became(before: Row, after: Row, state: RowState, failure: Option<string>, ref: Option<string>, now: nat) {
    && after.state == state && after.failureCode == failure && after.appliedRef == ref
    && after.completedAt == Some(now) && after.updatedAt == now
    && after.event == before.event && after.eventType == before.eventType && after.destination == before.destination
    && after.payloadDigest == before.payloadDigest && after.workId == before.workId && after.conflict == before.conflict
  }

  /** A queued row without conflict whose current run has read it so. */
  predicate RunUnderWay(s: Inbox, id: string) {
    && id in s.rows && s.rows[id].state.Queued? && s.rows[id].conflict.None? && InFlight(s, s.rows[id], id)
    && s.works[s.rows[id].workId].phase == Reading(Some(Seen(s.rows[id].event, Queued)))
  }

  function AnswerAndFinish(s: Inbox, id: string, x: Externals, answeredAt: nat, now: nat): Inbox
    requires id in s.rows
  {
    Step(Step(s, Answer(answeredAt, s.rows[id].workId, x)), Finish(now, s.rows[id].workId))
  }

  /** When nothing refuses a payment event and applying it is accepted, its row is ignored or applied as answered, with that reference. */
  lemma AcceptedRunDecides(s: Inbox, id: string, x: Externals, answeredAt: nat, now: nat)
    requires RunUnderWay(s, id) && !s.rows[id].event.kind.AccountEvent?
    requires NothingRefuses(s.rows[id].event.kind, x) && x.applied.ApplyAccepted?
    ensures var after := AnswerAndFinish(s, id, x, answeredAt, now);
            && id in after.rows && s.rows[id].workId !in after.works && after.timers == s.timers && after.alerts == s.alerts
            && Became(s.rows[id], after.rows[id],
                      match x.applied.status case WasIgnored => Ignored case WasApplied => Applied case WasReplayed => Applied,
                      s.rows[id].failureCode,
                      if x.applied.appliedRef.Some? then x.applied.appliedRef else s.rows[id].appliedRef, now)
  {
    NothingRefusesActs(s.rows[id].event, x);
  }

  /** An account event is ignored whatever its calls would answer. */
  lemma AccountRunIsIgnored(s: Inbox, id: string, x: Externals, answeredAt: nat, now: nat)
    requires RunUnderWay(s, id) && s.rows[id].event.kind.AccountEvent?
    ensures var after := AnswerAndFinish(s, id, x, answeredAt, now);
            && id in after.rows && s.rows[id].workId !in after.works && after.timers == s.timers
            && Became(s.rows[id], after.rows[id], Ignored, s.rows[id].failureCode, s.rows[id].appliedRef, now)
  {
  }

  /** The refusal that a run acts on: the first of its calls to refuse, or applying itself. */
  predicate RefusedWith(kind: EventKind, x: Externals, refusal: Refusal) {
    || x.durable == Some(refusal)
    || (&& x.durable.None? && !kind.DisputeEvent?
        && (|| x.config == Some(refusal)
            || (x.config.None? && (x.context == Some(refusal) || (x.context.None? && x.readback == Some(refusal))))))
    || (NothingRefuses(kind, x) && x.applied == ApplyRefused(refusal))
  }

  /** The refusing call is the one that the run acts on. */
  lemma RefusedWithActs(event: StripeEvent, x: Externals, refusal: Refusal)
    requires !event.kind.AccountEvent? && RefusedWith(event.kind, x, refusal)
    ensures Decide(Some(Seen(event, Queued)), x) == Retry(refusal)
  {
    var all := [x.durable, x.config, x.context, x.readback];
    assert all[1..] == [x.config, x.context, x.readback] && all[1..][1..] == [x.context, x.readback];
    assert all[1..][1..][1..] == [x.readback] && [x.readback][1..] == [] && [x.durable][1..] == [];
    assert NothingRefuses(event.kind, x) ==> FirstRefusal(Gates(event.kind, x)).None? by {
      if NothingRefuses(event.kind, x) { NothingRefusesActs(event, x); }
    }
    assert FirstRefusal([x.readback]) == x.readback;
    assert FirstRefusal(all[1..][1..]) == if x.context.Some? then x.context else x.readback;
    assert FirstRefusal(all[1..]) == if x.config.Some? then x.config else FirstRefusal(all[1..][1..]);
  }

  /** Without a refusing call the run acts on what applying answers. */
  lemma NothingRefusesActs(event: StripeEvent, x: Externals)
    requires !event.kind.AccountEvent? && NothingRefuses(event.kind, x)
    ensures FirstRefusal(Gates(event.kind, x)).None?
  {
    var all := [x.durable, x.config, x.context, x.readback];
    assert all[1..] == [x.config, x.context, x.readback] && all[1..][1..] == [x.context, x.readback];
    assert all[1..][1..][1..] == [x.readback] && [x.readback][1..] == [] && [x.durable][1..] == [];
    assert FirstRefusal([]).None? && FirstRefusal([x.durable]).None?;
    if !event.kind.DisputeEvent? {
      assert FirstRefusal([x.readback]).None?;
      assert FirstRefusal(all[1..][1..]).None?;
      assert FirstRefusal(all[1..]).None?;
      assert FirstRefusal(all).None?;
    }
  }

  /**
   A refused run of a payment event: a final refusal names itself, the thirteenth run names it
   as exhausted, and any earlier one arms one timer that is due after the doubled backoff.
   */
  lemma RefusedRunDecides(s: Inbox, id: string, x: Externals, refusal: Refusal, answeredAt: nat, now: nat)
    requires RunUnderWay(s, id) && !s.rows[id].event.kind.AccountEvent?
    requires RefusedWith(s.rows[id].event.kind, x, refusal)
    ensures var w, answered := s.rows[id].workId, Step(s, Answer(answeredAt, s.rows[id].workId, x));
            var after := AnswerAndFinish(s, id, x, answeredAt, now);
            && id in after.rows
            && if !refusal.retryable && refusal.code != "stripe_setup_required" then
                 && answered.timers == s.timers
                 && Became(s.rows[id], after.rows[id], ReconciliationRequired, Some(refusal.code), s.rows[id].appliedRef, now)
               else if s.works[w].attempt >= 12 then
                 && answered.timers == s.timers
                 && Became(s.rows[id], after.rows[id], ReconciliationRequired,
                           Some("stripe_webhook_retries_exhausted:" + refusal.code), s.rows[id].appliedRef, now)
               else
                 && after.rows[id] == s.rows[id] && answered.next == s.next + 1
                 && s.next in answered.timers && answered.timers == s.timers[s.next := answered.timers[s.next]]
                 && answered.timers[s.next].eventId == id && answered.timers[s.next].attempt == s.works[w].attempt + 1
                 && answered.timers[s.next].at == answeredAt + 60000 * Pow2(s.works[w].attempt)
  {
    RefusedWithActs(s.rows[id].event, x, refusal);
  }

  /** A run that failed, was canceled, or found its row decided already. */
  lemma OtherCompletionsSay(s: Inbox, id: string, now: nat, canceled: bool)
    requires id in s.rows && s.rows[id].conflict.None? && InFlight(s, s.rows[id], id)
    ensures var after := Step(s, GiveUp(now, s.rows[id].workId, canceled));
            && id in after.rows
            && Became(s.rows[id], after.rows[id], Failed,
                      Some(if canceled then "stripe_webhook_work_canceled" else "stripe_webhook_work_failed"),
                      s.rows[id].appliedRef, now)
  {
  }

  /** What a run answers when it found no row to process. */
  lemma StaleReadSays(seen: Option<Seen>, x: Externals)
    ensures seen.None? ==> Decide(seen, x) == Done(NeedsReconciliation("stripe_webhook_inbox_missing"))
    ensures seen.Some? && (seen.value.state.Applied? || seen.value.state.Ignored?) ==>
              Decide(seen, x) == Done(Accepted(WasReplayed, None))
    ensures seen.Some? && (seen.value.state.Failed? || seen.value.state.ReconciliationRequired?) ==>
              Decide(seen, x) == Done(NeedsReconciliation("stripe_webhook_inbox_not_processable"))
  {
  }

  // ---- ingest and requeue, column by column ----

  /** An event the endpoint refuses, and a redelivery of one that is not failed, change nothing. */
  lemma IngestAdmits(s: Inbox, admitted: bool, destination: Destination, event: StripeEvent, cid: string, now: nat)
    ensures var (after, answer) := Ingest(s, admitted, destination, event, cid, now);
            var fits := (match event.kind case AccountEvent => destination.AccountsV2? case _ => destination.Snapshot?)
                        && cid == event.id;
            var known := event.id in s.rows;
            var same := known && s.rows[event.id].payloadDigest == event.payloadDigest
                        && s.rows[event.id].eventType == event.eventType && s.rows[event.id].destination == destination;
            && (answer == Denied("source_write_denied") <==> !admitted)
            && (answer == Denied("payment_binding_invalid") <==> admitted && !fits)
            && (answer == AdmittedReplayed <==> admitted && fits && same && !s.rows[event.id].state.Failed?)
            && (answer == AdmittedReconciliation <==> admitted && fits && known && !same)
            && (answer == AdmittedQueued <==> admitted && fits && (!known || (same && s.rows[event.id].state.Failed?)))
            && (answer.Denied? || answer == AdmittedReplayed ==> after == s)
  {
  }

  /** A first delivery, or a failed event delivered again, is queued with fresh work of attempt zero. */
  lemma IngestQueues(s: Inbox, destination: Destination, event: StripeEvent, now: nat)
    requires Ingest(s, true, destination, event, event.id, now).1 == AdmittedQueued
    ensures var after := Ingest(s, true, destination, event, event.id, now).0;
            && event.id in after.rows && after.next == s.next + 1 && after.timers == s.timers && after.alerts == s.alerts
            && after.rows == s.rows[event.id := after.rows[event.id]]
            && s.next in after.works && after.works == s.works[s.next := after.works[s.next]]
            && after.works[s.next].eventId == event.id && after.works[s.next].attempt == 0 && after.works[s.next].phase.Idle?
            && var row := after.rows[event.id];
            && row.state.Queued? && row.workId == s.next && row.failureCode.None? && row.completedAt.None? && row.updatedAt == now
            && row.payloadDigest == event.payloadDigest && row.eventType == event.eventType && row.destination == destination
            && (event.id !in s.rows ==> row.event == event && row.conflict.None? && row.appliedRef.None?)
            && (event.id in s.rows ==> row.event == s.rows[event.id].event && row.conflict == s.rows[event.id].conflict
                                       && row.appliedRef == s.rows[event.id].appliedRef)
  {
  }

  /** Another payload under a known event id is recorded beside it: a decided row keeps its state and alerts, any other reconciles. */
  lemma IngestConflicts(s: Inbox, destination: Destination, event: StripeEvent, now: nat)
    requires Ingest(s, true, destination, event, event.id, now).1 == AdmittedReconciliation
    ensures var after := Ingest(s, true, destination, event, event.id, now).0;
            && event.id in s.rows && event.id in after.rows
            && after == s.(rows := s.rows[event.id := after.rows[event.id]], alerts := after.alerts)
            && var was, row := s.rows[event.id], after.rows[event.id];
            var decided := was.state.Applied? || was.state.Ignored?;
            && row.conflict == Some(event.payloadDigest) && row.failureCode == Some("stripe_event_identity_conflict")
            && row.updatedAt == now && row.event == was.event && row.payloadDigest == was.payloadDigest
            && row.workId == was.workId && row.appliedRef == was.appliedRef && row.eventType == was.eventType
            && row.destination == was.destination
            && row.state == (if decided then was.state else ReconciliationRequired)
            && row.completedAt == (if decided then was.completedAt else Some(now))
            && after.alerts == (if decided then s.alerts + {event.id} else s.alerts)
  {
  }

  /** A fired timer requeues exactly a queued row without conflict, as fresh current work of the timer's attempt. */
  lemma FireRequeues(s: Inbox, t: nat, now: nat)
    requires t in s.timers
    ensures var after, id := Step(s, Fire(now, t)), s.timers[t].eventId;
            var requeues := id in s.rows && s.rows[id].state.Queued? && s.rows[id].conflict.None?;
            && (s.timers[t].at > now ==> after == s)
            && (s.timers[t].at <= now ==> t !in after.timers)
            && (s.timers[t].at <= now && !requeues ==> after.rows == s.rows && after.works == s.works && after.next == s.next)
            && (s.timers[t].at <= now && requeues ==>
                  && after.next == s.next + 1
                  && after.rows == s.rows[id := s.rows[id].(workId := s.next, updatedAt := now)]
                  && s.next in after.works && after.works == s.works[s.next := after.works[s.next]]
                  && after.works[s.next].eventId == id && after.works[s.next].phase.Idle?
                  && after.works[s.next].attempt == s.timers[t].attempt)
  {
  }
}
