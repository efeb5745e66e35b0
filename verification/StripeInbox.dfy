/**
 The Stripe webhook inbox: one row per event id, the work queued for it and the
 retry timers the worker arms. `Ingest`, `Requeue`, `Complete` and the worker's
 decision are functions on the whole inbox; the class runs them table by table.
 */
module StripeInbox {
  import opened Wrappers

  datatype Destination = Snapshot | AccountsV2
  datatype EventKind = AccountEvent | CheckoutEvent | RefundEvent | DisputeEvent
  datatype StripeEvent = StripeEvent(id: string, eventType: string, kind: EventKind, payloadDigest: string)

  datatype RowState = Queued | Applied | Ignored | ReconciliationRequired | Failed

  datatype Row = Row(
    eventType: string, destination: Destination, event: StripeEvent, payloadDigest: string,
    state: RowState, workId: nat, conflict: Option<string>, failureCode: Option<string>,
    appliedRef: Option<string>, completedAt: Option<nat>, updatedAt: nat)

  datatype Refusal = Refusal(code: string, retryable: bool)
  datatype AcceptedStatus = WasApplied | WasReplayed | WasIgnored
  datatype WorkResult =
    | Accepted(status: AcceptedStatus, appliedRef: Option<string>)
    | NeedsReconciliation(code: string)
    | RetryScheduled
  datatype Completion = Success(result: WorkResult) | WorkFailed | WorkCanceled

  datatype Admission = AdmittedQueued | AdmittedReplayed | AdmittedReconciliation | Denied(code: string)

  /** What the worker read from the row. */
  datatype Seen = Seen(event: StripeEvent, state: RowState)

  /**
   Queued work. `lineage` lists the attempts of the runs that led here, and
   `waited` the backoff they asked for; the program stores neither.
   */
  datatype Work = Work(eventId: string, attempt: nat, phase: Phase, lineage: seq<nat>, waited: nat)
  datatype Phase = Idle | Reading(seen: Option<Seen>) | TimerArmed | Returned(result: WorkResult)
  datatype Timer = Timer(eventId: string, attempt: nat, at: nat, lineage: seq<nat>, waited: nat)

  /** Work and timers share one supply of ids. */
  datatype Inbox = Inbox(
    rows: map<string, Row>, works: map<nat, Work>, timers: map<nat, Timer>, next: nat, alerts: set<string>)

  const RETRY_MAX_ATTEMPTS: nat := 13
  const RETRY_INITIAL_BACKOFF_MS: nat := 60000
  const CONFLICT_CODE := "stripe_event_identity_conflict"

  // ---- ingest ----

  predicate DestinationMatches(destination: Destination, kind: EventKind) {
    if destination.AccountsV2? then kind.AccountEvent?
    else kind.CheckoutEvent? || kind.RefundEvent? || kind.DisputeEvent?
  }

  /** The same delivery again, as opposed to another payload under the same event id. */
  predicate SameDelivery(row: Row, destination: Destination, event: StripeEvent) {
    row.payloadDigest == event.payloadDigest && row.eventType == event.eventType && row.destination == destination
  }

  function FreshWork(eventId: string): Work { Work(eventId, 0, Idle, [0], 0) }

  function Enqueue(s: Inbox, work: Work): Inbox {
    s.(works := s.works[s.next := work], next := s.next + 1)
  }

  function NewRow(destination: Destination, event: StripeEvent, workId: nat, now: nat): Row {
    Row(event.eventType, destination, event, event.payloadDigest, Queued, workId, None, None, None, None, now)
  }

  function Conflicted(row: Row, event: StripeEvent, now: nat): Row {
    var marked := row.(conflict := Some(event.payloadDigest), failureCode := Some(CONFLICT_CODE), updatedAt := now);
    if row.state.Applied? || row.state.Ignored? then marked
    else marked.(state := ReconciliationRequired, completedAt := Some(now))
  }

  function Ingest(s: Inbox, admitted: bool, destination: Destination, event: StripeEvent,
                  correlationId: string, now: nat): (Inbox, Admission)
  {
    if !admitted then (s, Denied("source_write_denied"))
    else if !DestinationMatches(destination, event.kind) || correlationId != event.id
    then (s, Denied("payment_binding_invalid"))
    else if event.id !in s.rows then
      (Enqueue(s, FreshWork(event.id)).(rows := s.rows[event.id := NewRow(destination, event, s.next, now)]),
       AdmittedQueued)
    else
      var row := s.rows[event.id];
      if SameDelivery(row, destination, event) then
        if row.state.Failed? then
          (Enqueue(s, FreshWork(event.id)).(rows := s.rows[event.id := row.(
             state := Queued, failureCode := None, completedAt := None, updatedAt := now, workId := s.next)]),
           AdmittedQueued)
        else (s, AdmittedReplayed)
      else
        (s.(rows := s.rows[event.id := Conflicted(row, event, now)],
            alerts := if row.state.Applied? || row.state.Ignored? then s.alerts + {event.id} else s.alerts),
         AdmittedReconciliation)
  }

  // ---- requeue and complete ----

  function Requeue(s: Inbox, t: Timer, now: nat): Inbox {
    if t.eventId !in s.rows || !s.rows[t.eventId].state.Queued? || s.rows[t.eventId].conflict.Some? then s
    else Enqueue(s, Work(t.eventId, t.attempt, Idle, t.lineage, t.waited))
           .(rows := s.rows[t.eventId := s.rows[t.eventId].(workId := s.next, updatedAt := now)])
  }

  function Completed(row: Row, result: Completion, now: nat): Row {
    match result
    case WorkFailed => row.(state := Failed, failureCode := Some("stripe_webhook_work_failed"),
                            updatedAt := now, completedAt := Some(now))
    case WorkCanceled => row.(state := Failed, failureCode := Some("stripe_webhook_work_canceled"),
                              updatedAt := now, completedAt := Some(now))
    case Success(RetryScheduled) => row
    case Success(NeedsReconciliation(code)) =>
      row.(state := ReconciliationRequired, failureCode := Some(code), updatedAt := now, completedAt := Some(now))
    case Success(Accepted(status, ref)) =>
      row.(state := if status.WasIgnored? then Ignored else Applied,
           appliedRef := if ref.Some? then ref else row.appliedRef, updatedAt := now, completedAt := Some(now))
  }

  function Complete(s: Inbox, workId: nat, eventId: string, result: Completion, now: nat): Inbox {
    if eventId !in s.rows || s.rows[eventId].workId != workId || s.rows[eventId].conflict.Some? then s
    else s.(rows := s.rows[eventId := Completed(s.rows[eventId], result, now)])
  }

  // ---- worker ----

  /** What the calls the worker makes would answer; `None` is no refusal. */
  datatype Externals = Externals(
    durable: Option<Refusal>, config: Option<Refusal>, context: Option<Refusal>, readback: Option<Refusal>,
    applied: ApplyAnswer)
  datatype ApplyAnswer = ApplyAccepted(status: AcceptedStatus, appliedRef: Option<string>) | ApplyRefused(refusal: Refusal)

  datatype Decision = Done(result: WorkResult) | Retry(refusal: Refusal)

  function FirstRefusal(answers: seq<Option<Refusal>>): Option<Refusal> {
    if answers == [] then None else if answers[0].Some? then answers[0] else FirstRefusal(answers[1..])
  }

  /** The refusable calls made for an event before it is applied, in order. */
  function Gates(kind: EventKind, x: Externals): seq<Option<Refusal>> {
    if kind.DisputeEvent? then [x.durable] else [x.durable, x.config, x.context, x.readback]
  }

  function Decide(seen: Option<Seen>, x: Externals): Decision {
    if seen.None? then Done(NeedsReconciliation("stripe_webhook_inbox_missing"))
    else if seen.value.state.Applied? || seen.value.state.Ignored? then Done(Accepted(WasReplayed, None))
    else if !seen.value.state.Queued? then Done(NeedsReconciliation("stripe_webhook_inbox_not_processable"))
    else if seen.value.event.kind.AccountEvent? then Done(Accepted(WasIgnored, None))
    else
      var refusal := FirstRefusal(Gates(seen.value.event.kind, x));
      if refusal.Some? then Retry(refusal.value)
      else match x.applied
        case ApplyRefused(r) => Retry(r)
        case ApplyAccepted(status, ref) => Done(Accepted(status, ref))
  }

  /** The result that ends a refused run at once; none when a retry is due. */
  function Reconciled(attempt: nat, refusal: Refusal): Option<WorkResult> {
    if !refusal.retryable && refusal.code != "stripe_setup_required" then Some(NeedsReconciliation(refusal.code))
    else if attempt + 1 >= RETRY_MAX_ATTEMPTS
    then Some(NeedsReconciliation("stripe_webhook_retries_exhausted:" + refusal.code))
    else None
  }

  function Backoff(attempt: nat): nat { RETRY_INITIAL_BACKOFF_MS * Pow2(attempt) }

  /** The timer a refused run arms for its successor. */
  function RetryTimer(w: Work, now: nat): Timer {
    Timer(w.eventId, w.attempt + 1, now + Backoff(w.attempt), w.lineage + [w.attempt + 1], w.waited + Backoff(w.attempt))
  }

  function ArmTimer(s: Inbox, t: Timer): Inbox {
    s.(timers := s.timers[s.next := t], next := s.next + 1)
  }

  // ---- the tables ----

  class InboxTables {
    var rows: map<string, Row>
    var works: map<nat, Work>
    var timers: map<nat, Timer>
    var next: nat
    var alerts: set<string>

    constructor ()
      ensures State() == Inbox(map[], map[], map[], 0, {})
    {
      rows, works, timers, next, alerts := map[], map[], map[], 0, {};
    }

    function State(): Inbox
      reads this
    {
      Inbox(rows, works, timers, next, alerts)
    }

    method EnqueueProcess(work: Work) returns (workId: nat)
      modifies this`works, this`next
      ensures workId == old(next) && State() == Enqueue(old(State()), work)
    {
      workId := next;
      works := works[workId := work];
      next := next + 1;
    }

    method IngestEvent(admitted: bool, destination: Destination, event: StripeEvent, correlationId: string, now: nat)
      returns (answer: Admission)
      modifies this
      ensures (State(), answer) == Ingest(old(State()), admitted, destination, event, correlationId, now)
    {
      if !admitted { return Denied("source_write_denied"); }
      var destinationMatches := if destination == AccountsV2 then event.kind.AccountEvent?
                                else event.kind.CheckoutEvent? || event.kind.RefundEvent? || event.kind.DisputeEvent?;
      if !destinationMatches || correlationId != event.id { return Denied("payment_binding_invalid"); }
      if event.id in rows {
        var existing := rows[event.id];
        if existing.payloadDigest == event.payloadDigest && existing.eventType == event.eventType
           && existing.destination == destination {
          if existing.state == Failed {
            rows := rows[event.id := existing.(state := Queued, failureCode := None, completedAt := None, updatedAt := now)];
            var workId := EnqueueProcess(FreshWork(event.id));
            rows := rows[event.id := rows[event.id].(workId := workId)];
            assert rows == old(rows)[event.id := rows[event.id]];
            return AdmittedQueued;
          }
          return AdmittedReplayed;
        }
        if existing.state == Applied || existing.state == Ignored {
          rows := rows[event.id := existing.(
            conflict := Some(event.payloadDigest), failureCode := Some(CONFLICT_CODE), updatedAt := now)];
          alerts := alerts + {event.id};
          return AdmittedReconciliation;
        }
        rows := rows[event.id := existing.(
          state := ReconciliationRequired, conflict := Some(event.payloadDigest), failureCode := Some(CONFLICT_CODE),
          updatedAt := now, completedAt := Some(now))];
        return AdmittedReconciliation;
      }
      var workId := EnqueueProcess(FreshWork(event.id));
      rows := rows[event.id := NewRow(destination, event, workId, now)];
      answer := AdmittedQueued;
    }

    method RequeueEvent(t: Timer, now: nat)
      modifies this
      ensures State() == Requeue(old(State()), t, now)
    {
      if t.eventId !in rows || rows[t.eventId].state != Queued || rows[t.eventId].conflict.Some? { return; }
      var workId := EnqueueProcess(Work(t.eventId, t.attempt, Idle, t.lineage, t.waited));
      rows := rows[t.eventId := rows[t.eventId].(workId := workId, updatedAt := now)];
    }

    method CompleteWork(workId: nat, eventId: string, result: Completion, now: nat)
      modifies this`rows
      ensures State() == Complete(old(State()), workId, eventId, result, now)
    {
      if eventId !in rows || rows[eventId].workId != workId || rows[eventId].conflict.Some? { return; }
      var row := rows[eventId];
      if !result.Success? {
        rows := rows[eventId := row.(
          state := Failed,
          failureCode := Some(if result.WorkCanceled? then "stripe_webhook_work_canceled" else "stripe_webhook_work_failed"),
          updatedAt := now, completedAt := Some(now))];
        return;
      }
      match result.result {
        case RetryScheduled => return;
        case NeedsReconciliation(code) =>
          rows := rows[eventId := row.(
            state := ReconciliationRequired, failureCode := Some(code), updatedAt := now, completedAt := Some(now))];
        case Accepted(status, ref) =>
          row := row.(state := if status.WasIgnored? then Ignored else Applied, updatedAt := now, completedAt := Some(now));
          if ref.Some? { row := row.(appliedRef := ref); }
          rows := rows[eventId := row];
      }
    }

    /** Schedules the next attempt, or gives up with a reason. */
    method RetryOrReconcile(work: Work, refusal: Refusal, now: nat) returns (result: WorkResult)
      modifies this`timers, this`next
      ensures match Reconciled(work.attempt, refusal)
              case Some(end) => result == end && State() == old(State())
              case None => result == RetryScheduled && State() == ArmTimer(old(State()), RetryTimer(work, now))
    {
      if !refusal.retryable && refusal.code != "stripe_setup_required" { return NeedsReconciliation(refusal.code); }
      if work.attempt + 1 >= 13 {
        return NeedsReconciliation("stripe_webhook_retries_exhausted:" + refusal.code);
      }
      timers := timers[next := Timer(work.eventId, work.attempt + 1, now + 60000 * Pow2(work.attempt),
                                     work.lineage + [work.attempt + 1], work.waited + 60000 * Pow2(work.attempt))];
      next := next + 1;
      result := RetryScheduled;
    }

    /** One worker run, from the row it reads to the result it returns. */
    method Process(work: Work, x: Externals, now: nat) returns (result: WorkResult)
      modifies this`timers, this`next
      ensures var seen := if work.eventId in old(rows)
                          then Some(Seen(old(rows)[work.eventId].event, old(rows)[work.eventId].state)) else None;
              match Decide(seen, x)
              case Done(end) => result == end && State() == old(State())
              case Retry(refusal) =>
                match Reconciled(work.attempt, refusal)
                case Some(end) => result == end && State() == old(State())
                case None => result == RetryScheduled && State() == ArmTimer(old(State()), RetryTimer(work, now))
    {
      if work.eventId !in rows { return NeedsReconciliation("stripe_webhook_inbox_missing"); }
      var row := rows[work.eventId];
      if row.state == Applied || row.state == Ignored { return Accepted(WasReplayed, None); }
      if row.state != Queued { return NeedsReconciliation("stripe_webhook_inbox_not_processable"); }
      var kind := row.event.kind;
      if kind == AccountEvent { return Accepted(WasIgnored, None); }
      GateOrder(kind, x);
      if x.durable.Some? { result := RetryOrReconcile(work, x.durable.value, now); return; }
      if kind != DisputeEvent {
        if x.config.Some? { result := RetryOrReconcile(work, x.config.value, now); return; }
        if x.context.Some? { result := RetryOrReconcile(work, x.context.value, now); return; }
        if x.readback.Some? { result := RetryOrReconcile(work, x.readback.value, now); return; }
      }
      match x.applied {
        case ApplyRefused(refusal) => result := RetryOrReconcile(work, refusal, now);
        case ApplyAccepted(status, ref) => result := Accepted(status, ref);
      }
    }
  }

  /** The first refusal is the one of the earliest refusing call. */
  lemma GateOrder(kind: EventKind, x: Externals)
    ensures FirstRefusal(Gates(kind, x))
            == if x.durable.Some? then x.durable
               else if kind.DisputeEvent? then None
               else if x.config.Some? then x.config
               else if x.context.Some? then x.context
               else x.readback
  {
    var all := [x.durable, x.config, x.context, x.readback];
    assert all[1..] == [x.config, x.context, x.readback];
    assert all[1..][1..] == [x.context, x.readback];
    assert all[1..][1..][1..] == [x.readback];
    assert FirstRefusal([x.readback]) == x.readback;
    assert FirstRefusal([x.context, x.readback]) == if x.context.Some? then x.context else x.readback;
    assert [x.durable][1..] == [];
  }
}
