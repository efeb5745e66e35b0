/**
 The inbox over any run: redelivered and conflicting events, crashed and repeated
 worker runs, duplicate timers and superseded work. The workpool completes each
 work id at most once; everything else may happen in any order.
 */
module StripeProtocol {
  import opened Wrappers
  import opened StripeInbox

  datatype Event =
    | Deliver(now: nat, admitted: bool, destination: Destination, event: StripeEvent, correlationId: string)
    | ReadRow(now: nat, work: nat)
    | Answer(now: nat, work: nat, x: Externals)   // the worker's calls answered; it returns or arms a timer
    | ReturnRetry(now: nat, work: nat)            // the armed run returns
    | Rerun(now: nat, work: nat)                  // the run crashed, or its result was lost, and it starts over
    | Finish(now: nat, work: nat)                 // the workpool delivers a returned result
    | GiveUp(now: nat, work: nat, canceled: bool) // the workpool delivers a failure or a cancellation
    | Fire(now: nat, timer: nat)

  function SetPhase(s: Inbox, w: nat, phase: Phase): Inbox
    requires w in s.works
  {
    s.(works := s.works[w := s.works[w].(phase := phase)])
  }

  function ReadFor(s: Inbox, eventId: string): Option<Seen> {
    if eventId in s.rows then Some(Seen(s.rows[eventId].event, s.rows[eventId].state)) else None
  }

  function AnswerRun(s: Inbox, w: nat, x: Externals, now: nat): Inbox {
    if w !in s.works || !s.works[w].phase.Reading? then s else
      match Decide(s.works[w].phase.seen, x)
      case Done(result) => SetPhase(s, w, Returned(result))
      case Retry(refusal) =>
        match Reconciled(s.works[w].attempt, refusal)
        case Some(result) => SetPhase(s, w, Returned(result))
        case None => ArmTimer(SetPhase(s, w, TimerArmed), RetryTimer(s.works[w], now))
  }

  /** A completion leaves the workpool and reaches the row. */
  function Completing(s: Inbox, w: nat, result: Completion, now: nat): Inbox
    requires w in s.works
  {
    Complete(s.(works := Remove(s.works, w)), w, s.works[w].eventId, result, now)
  }

  function Step(s: Inbox, e: Event): Inbox {
    match e
    case Deliver(now, admitted, destination, event, correlationId) =>
      Ingest(s, admitted, destination, event, correlationId, now).0
    case ReadRow(_, w) =>
      if w in s.works && s.works[w].phase.Idle? then SetPhase(s, w, Reading(ReadFor(s, s.works[w].eventId))) else s
    case Answer(now, w, x) => AnswerRun(s, w, x, now)
    case ReturnRetry(_, w) =>
      if w in s.works && s.works[w].phase.TimerArmed? then SetPhase(s, w, Returned(RetryScheduled)) else s
    case Rerun(_, w) => if w in s.works then SetPhase(s, w, Idle) else s
    case Finish(now, w) =>
      if w in s.works && s.works[w].phase.Returned? then Completing(s, w, Success(s.works[w].phase.result), now) else s
    case GiveUp(now, w, canceled) =>
      if w in s.works then Completing(s, w, if canceled then WorkCanceled else WorkFailed, now) else s
    case Fire(now, t) =>
      if t in s.timers && s.timers[t].at <= now
      then Requeue(s.(timers := Remove(s.timers, t)), s.timers[t], now) else s
  }

  function Run(s: Inbox, events: seq<Event>): Inbox {
    if events == [] then s else Step(Run(s, events[..|events| - 1]), events[|events| - 1])
  }

  const EMPTY := Inbox(map[], map[], map[], 0, {})

  // ---- the invariant ----

  ghost predicate TimerPending(s: Inbox, id: string) {
    exists t :: t in s.timers && s.timers[t].eventId == id
  }

  predicate InFlight(s: Inbox, row: Row, id: string) {
    row.workId in s.works && s.works[row.workId].eventId == id
  }

  /** Work that will end, or has ended, with nothing but its timer to carry the event. */
  predicate LeftToTimer(w: Work) {
    w.phase.TimerArmed? || w.phase == Returned(RetryScheduled)
  }

  ghost predicate NotStranded(s: Inbox, row: Row, id: string) {
    row.state.Queued? ==>
      (InFlight(s, row, id) && !LeftToTimer(s.works[row.workId])) || TimerPending(s, id)
  }

  ghost predicate RowHolds(s: Inbox, id: string, row: Row) {
    && row.event.id == id && row.event.eventType == row.eventType && row.event.payloadDigest == row.payloadDigest
    && DestinationMatches(row.destination, row.event.kind)
    && row.workId < s.next && (row.workId in s.works ==> s.works[row.workId].eventId == id)
    && (row.conflict.Some? ==> row.state.Applied? || row.state.Ignored? || row.state.ReconciliationRequired?)
    && (!row.state.Queued? && row.conflict.None? ==> row.workId !in s.works)
    && NotStranded(s, row, id)
    && (id in s.alerts <==> row.conflict.Some? && (row.state.Applied? || row.state.Ignored?))
  }

  predicate LineageHolds(attempt: nat, lineage: seq<nat>, waited: nat) {
    attempt < RETRY_MAX_ATTEMPTS && lineage == UpTo(attempt + 1)
    && waited == RETRY_INITIAL_BACKOFF_MS * (Pow2(attempt) - 1)
  }

  ghost predicate RowsHold(s: Inbox) {
    forall id :: id in s.rows ==> RowHolds(s, id, s.rows[id])
  }

  ghost predicate WorkHolds(s: Inbox) {
    && (forall w :: w in s.works ==> w < s.next && LineageHolds(s.works[w].attempt, s.works[w].lineage, s.works[w].waited)
                                     && s.works[w].eventId in s.rows)
    && (forall t :: t in s.timers ==> LineageHolds(s.timers[t].attempt, s.timers[t].lineage, s.timers[t].waited)
                                      && s.timers[t].eventId in s.rows)
    && (forall id :: id in s.alerts ==> id in s.rows)
    && (forall t :: t in s.timers ==> t < s.next)
  }

  ghost predicate Holds(s: Inbox) { RowsHold(s) && WorkHolds(s) }

  // ---- each operation ----

  /** A row that a step leaves alone still holds if its work, its timers and its alert are left alone. */
  lemma RowKept(s: Inbox, after: Inbox, id: string)
    requires RowsHold(s) && id in s.rows && id in after.rows && after.rows[id] == s.rows[id]
    requires s.rows[id].workId in after.works <==> s.rows[id].workId in s.works
    requires s.rows[id].workId in s.works ==> after.works[s.rows[id].workId] == s.works[s.rows[id].workId]
    requires (TimerPending(s, id) ==> TimerPending(after, id)) && s.next <= after.next
    requires id in after.alerts <==> id in s.alerts
    ensures RowHolds(after, id, after.rows[id])
  {
    assert RowHolds(s, id, s.rows[id]);
  }

  /** The row of a first delivery, or of a failed event delivered again: queued, with fresh work. */
  lemma QueuedRowHolds(s: Inbox, row: Row, id: string)
    requires Holds(s) && row.event.id == id && row.event.eventType == row.eventType
    requires row.event.payloadDigest == row.payloadDigest && DestinationMatches(row.destination, row.event.kind)
    requires row.state.Queued? && row.conflict.None? && row.workId == s.next && id !in s.alerts
    ensures Holds(Enqueue(s, FreshWork(id)).(rows := s.rows[id := row]))
  {
    var after := Enqueue(s, FreshWork(id)).(rows := s.rows[id := row]);
    assert UpTo(1) == [0] && Pow2(0) == 1;
    forall i | i in after.rows
      ensures RowHolds(after, i, after.rows[i])
    {
      if i != id { assert RowHolds(s, i, s.rows[i]); RowKept(s, after, i); }
    }
  }

  lemma ConflictHolds(s: Inbox, event: StripeEvent, now: nat)
    requires Holds(s) && event.id in s.rows
    ensures var row := s.rows[event.id];
            Holds(s.(rows := s.rows[event.id := Conflicted(row, event, now)],
                     alerts := if row.state.Applied? || row.state.Ignored? then s.alerts + {event.id} else s.alerts))
  {
    var row := s.rows[event.id];
    var after := s.(rows := s.rows[event.id := Conflicted(row, event, now)],
                    alerts := if row.state.Applied? || row.state.Ignored? then s.alerts + {event.id} else s.alerts);
    assert RowHolds(s, event.id, row);
    forall id | id in after.rows
      ensures RowHolds(after, id, after.rows[id])
    {
      if id != event.id { RowKept(s, after, id); }
    }
  }

  lemma IngestHolds(s: Inbox, admitted: bool, destination: Destination, event: StripeEvent,
                    correlationId: string, now: nat)
    requires Holds(s)
    ensures Holds(Ingest(s, admitted, destination, event, correlationId, now).0)
  {
    if admitted && DestinationMatches(destination, event.kind) && correlationId == event.id {
      if event.id !in s.rows {
        QueuedRowHolds(s, NewRow(destination, event, s.next, now), event.id);
      } else {
        var row := s.rows[event.id];
        assert RowHolds(s, event.id, row);
        if !SameDelivery(row, destination, event) {
          ConflictHolds(s, event, now);
        } else if row.state.Failed? {
          QueuedRowHolds(s, row.(state := Queued, failureCode := None, completedAt := None, updatedAt := now,
                                 workId := s.next), event.id);
        }
      }
    }
  }

  /** A step that drops no timer keeps every pending one. */
  lemma TimerKept(s: Inbox, after: Inbox, id: string)
    requires TimerPending(s, id)
    requires forall t :: t in s.timers ==> t in after.timers && after.timers[t] == s.timers[t]
    ensures TimerPending(after, id)
  {
    var t :| t in s.timers && s.timers[t].eventId == id;
    assert t in after.timers && after.timers[t].eventId == id;
  }

  /** The row whose current work completes. */
  lemma CurrentCompletes(s: Inbox, w: nat, result: Completion, now: nat, id: string)
    requires Holds(s) && w in s.works && id in s.rows && s.rows[id].workId == w
    requires result == Success(RetryScheduled) ==> LeftToTimer(s.works[w])
    ensures id in Completing(s, w, result, now).rows
    ensures RowHolds(Completing(s, w, result, now), id, Completing(s, w, result, now).rows[id])
  {
    var after := Completing(s, w, result, now);
    assert RowHolds(s, id, s.rows[id]);
    assert after.rows[id] == if s.rows[id].conflict.Some? then s.rows[id] else Completed(s.rows[id], result, now);
    assert w !in after.works && after.timers == s.timers && after.alerts == s.alerts && after.next == s.next;
    if TimerPending(s, id) { TimerKept(s, after, id); }
  }

  /** A delivered completion leaves every row whose current work it is not as it was. */
  lemma CompleteHolds(s: Inbox, w: nat, result: Completion, now: nat)
    requires Holds(s) && w in s.works
    requires result == Success(RetryScheduled) ==> LeftToTimer(s.works[w])
    ensures Holds(Completing(s, w, result, now))
  {
    var after := Completing(s, w, result, now);
    forall id | id in after.rows
      ensures RowHolds(after, id, after.rows[id])
    {
      if s.rows[id].workId == w {
        CurrentCompletes(s, w, result, now, id);
      } else {
        if TimerPending(s, id) { TimerKept(s, after, id); }
        RowKept(s, after, id);
      }
    }
  }

  /** The row a timer fires for: requeued with fresh work, or not queued and left alone. */
  lemma FiredRowHolds(s: Inbox, t: nat, now: nat)
    requires Holds(s) && t in s.timers
    ensures var after := Requeue(s.(timers := Remove(s.timers, t)), s.timers[t], now);
            var id := s.timers[t].eventId;
            id in after.rows && RowHolds(after, id, after.rows[id])
  {
    assert RowHolds(s, s.timers[t].eventId, s.rows[s.timers[t].eventId]);
  }

  lemma OtherTimerKept(s: Inbox, after: Inbox, t: nat, id: string)
    requires TimerPending(s, id) && t in s.timers && s.timers[t].eventId != id && after.timers == Remove(s.timers, t)
    ensures TimerPending(after, id)
  {
    var u :| u in s.timers && s.timers[u].eventId == id;
    assert u in after.timers && after.timers[u].eventId == id;
  }

  lemma FireHolds(s: Inbox, t: nat, now: nat)
    requires Holds(s) && t in s.timers
    ensures Holds(Requeue(s.(timers := Remove(s.timers, t)), s.timers[t], now))
  {
    var fired := s.timers[t];
    var after := Requeue(s.(timers := Remove(s.timers, t)), fired, now);
    assert LineageHolds(fired.attempt, fired.lineage, fired.waited);
    forall id | id in after.rows
      ensures RowHolds(after, id, after.rows[id])
    {
      if id == fired.eventId {
        FiredRowHolds(s, t, now);
      } else {
        assert RowHolds(s, id, s.rows[id]);
        if TimerPending(s, id) { OtherTimerKept(s, after, t, id); }
        RowKept(s, after, id);
      }
    }
  }

  lemma PhaseHolds(s: Inbox, w: nat, phase: Phase)
    requires Holds(s) && w in s.works
    requires LeftToTimer(s.works[w].(phase := phase)) ==> LeftToTimer(s.works[w])
    ensures Holds(SetPhase(s, w, phase))
  {
    var after := SetPhase(s, w, phase);
    forall id | id in after.rows
      ensures RowHolds(after, id, after.rows[id])
    {
      assert RowHolds(s, id, s.rows[id]);
      if TimerPending(s, id) { TimerKept(s, after, id); }
    }
  }

  lemma NextLineage(attempt: nat, lineage: seq<nat>, waited: nat)
    requires LineageHolds(attempt, lineage, waited) && attempt + 1 < RETRY_MAX_ATTEMPTS
    ensures LineageHolds(attempt + 1, lineage + [attempt + 1], waited + Backoff(attempt))
  {
    assert Pow2(attempt + 1) == 2 * Pow2(attempt);
  }

  /** A run arms its timer: every row keeps its own, and its row now has this one. */
  lemma ArmKeepsRow(s: Inbox, w: nat, t: Timer, id: string)
    requires Holds(s) && w in s.works && t.eventId == s.works[w].eventId && id in s.rows
    ensures RowHolds(ArmTimer(SetPhase(s, w, TimerArmed), t), id, s.rows[id])
  {
    var after := ArmTimer(SetPhase(s, w, TimerArmed), t);
    assert RowHolds(s, id, s.rows[id]);
    assert after.timers[s.next].eventId == s.works[w].eventId;
    if TimerPending(s, id) { TimerKept(s, after, id); }
  }

  lemma ArmHolds(s: Inbox, w: nat, now: nat)
    requires Holds(s) && w in s.works && s.works[w].attempt + 1 < RETRY_MAX_ATTEMPTS
    ensures Holds(ArmTimer(SetPhase(s, w, TimerArmed), RetryTimer(s.works[w], now)))
  {
    var work := s.works[w];
    NextLineage(work.attempt, work.lineage, work.waited);
    forall id | id in s.rows
      ensures RowHolds(ArmTimer(SetPhase(s, w, TimerArmed), RetryTimer(work, now)), id, s.rows[id])
    {
      ArmKeepsRow(s, w, RetryTimer(work, now), id);
    }
  }

  /** A decision is never "retry scheduled": that result is returned only after arming the timer. */
  lemma DecisionIsFinal(seen: Option<Seen>, x: Externals, attempt: nat, refusal: Refusal)
    ensures Decide(seen, x).Done? ==> Decide(seen, x).result != RetryScheduled
    ensures Reconciled(attempt, refusal).Some? ==> Reconciled(attempt, refusal).value != RetryScheduled
  {
  }

  lemma AnswerHolds(s: Inbox, w: nat, x: Externals, now: nat)
    requires Holds(s)
    ensures Holds(AnswerRun(s, w, x, now))
  {
    if w in s.works && s.works[w].phase.Reading? {
      match Decide(s.works[w].phase.seen, x)
      case Done(result) => PhaseHolds(s, w, Returned(result));
      case Retry(refusal) =>
        match Reconciled(s.works[w].attempt, refusal)
        case Some(result) => PhaseHolds(s, w, Returned(result));
        case None => ArmHolds(s, w, now);
    }
  }

  lemma RunPhaseHolds(s: Inbox, e: Event)
    requires Holds(s) && (e.ReadRow? || e.ReturnRetry? || e.Rerun?)
    ensures Holds(Step(s, e))
  {
    if e.work in s.works {
      match e
      case ReadRow(_, w) => PhaseHolds(s, w, Reading(ReadFor(s, s.works[w].eventId)));
      case Rerun(_, w) => PhaseHolds(s, w, Idle);
      case ReturnRetry(_, w) => if s.works[w].phase.TimerArmed? { PhaseHolds(s, w, Returned(RetryScheduled)); }
    }
  }

  lemma CompletionHolds(s: Inbox, e: Event)
    requires Holds(s) && (e.Finish? || e.GiveUp?)
    ensures Holds(Step(s, e))
  {
    if e.work in s.works {
      match e
      case Finish(now, w) =>
        if s.works[w].phase.Returned? { CompleteHolds(s, w, Success(s.works[w].phase.result), now); }
      case GiveUp(now, w, canceled) => CompleteHolds(s, w, if canceled then WorkCanceled else WorkFailed, now);
    }
  }

  lemma StepHolds(s: Inbox, e: Event)
    requires Holds(s)
    ensures Holds(Step(s, e))
  {
    match e
    case Deliver(now, admitted, destination, event, cid) => IngestHolds(s, admitted, destination, event, cid, now);
    case Answer(now, w, x) => AnswerHolds(s, w, x, now);
    case Fire(now, t) => if t in s.timers && s.timers[t].at <= now { FireHolds(s, t, now); }
    case Finish(_, _) => CompletionHolds(s, e);
    case GiveUp(_, _, _) => CompletionHolds(s, e);
    case _ => RunPhaseHolds(s, e);
  }

  lemma {:induction false} RunHolds(events: seq<Event>)
    ensures Holds(Run(EMPTY, events))
  {
    if events != [] {
      RunHolds(events[..|events| - 1]);
      StepHolds(Run(EMPTY, events[..|events| - 1]), events[|events| - 1]);
    }
  }

  // ---- theorems ----

  /**
   A queued row always has its current work in flight and still to decide, or a
   requeue timer pending. Work that has armed its timer does not count on its own.
   */
  lemma {:induction false} NeverStranded(events: seq<Event>, id: string)
    requires id in Run(EMPTY, events).rows && Run(EMPTY, events).rows[id].state.Queued?
    ensures var s := Run(EMPTY, events);
            (InFlight(s, s.rows[id], id) && !LeftToTimer(s.works[s.rows[id].workId])) || TimerPending(s, id)
  {
    RunHolds(events);
    assert RowHolds(Run(EMPTY, events), id, Run(EMPTY, events).rows[id]);
  }

  /** What one step may do to a row that exists. */
  ghost predicate RowMoves(before: Row, after: Row) {
    && after.event == before.event && after.payloadDigest == before.payloadDigest
    && after.destination == before.destination && after.eventType == before.eventType
    && (before.state.Applied? || before.state.Ignored? ==>
          after.state == before.state && after.appliedRef == before.appliedRef)
    && (before.state.ReconciliationRequired? ==> after.state.ReconciliationRequired?)
    && (before.state.Failed? ==> after.state.Failed? || after.state.Queued? || after.state.ReconciliationRequired?)
    && (before.conflict.Some? ==> after.conflict.Some? && after.state == before.state && after.workId == before.workId)
  }

  lemma IngestMovesRow(s: Inbox, admitted: bool, destination: Destination, event: StripeEvent,
                       cid: string, now: nat, id: string)
    requires RowsHold(s) && id in s.rows
    ensures var after := Ingest(s, admitted, destination, event, cid, now).0;
            id in after.rows && RowMoves(s.rows[id], after.rows[id])
  {
    assert RowHolds(s, id, s.rows[id]);
  }

  lemma CompleteMovesRow(s: Inbox, w: nat, result: Completion, now: nat, id: string)
    requires RowsHold(s) && id in s.rows && w in s.works
    ensures var after := Completing(s, w, result, now);
            id in after.rows && RowMoves(s.rows[id], after.rows[id])
  {
    assert RowHolds(s, id, s.rows[id]);
  }

  lemma RequeueMovesRow(s: Inbox, t: Timer, now: nat, id: string)
    requires id in s.rows
    ensures id in Requeue(s, t, now).rows && RowMoves(s.rows[id], Requeue(s, t, now).rows[id])
  {
  }

  lemma QuietStepMovesNoRow(s: Inbox, e: Event)
    requires e.ReadRow? || e.Answer? || e.ReturnRetry? || e.Rerun?
    ensures Step(s, e).rows == s.rows
  {
  }

  lemma StepMovesRow(s: Inbox, e: Event, id: string)
    requires RowsHold(s) && id in s.rows
    ensures id in Step(s, e).rows && RowMoves(s.rows[id], Step(s, e).rows[id])
  {
    match e
    case Deliver(now, admitted, destination, event, cid) => IngestMovesRow(s, admitted, destination, event, cid, now, id);
    case Finish(now, w) =>
      if w in s.works && s.works[w].phase.Returned? {
        CompleteMovesRow(s, w, Success(s.works[w].phase.result), now, id);
      }
    case GiveUp(now, w, canceled) =>
      if w in s.works { CompleteMovesRow(s, w, if canceled then WorkCanceled else WorkFailed, now, id); }
    case Fire(now, t) =>
      if t in s.timers { RequeueMovesRow(s.(timers := Remove(s.timers, t)), s.timers[t], now, id); }
    case _ => QuietStepMovesNoRow(s, e);
  }

  /** The reflexive and transitive part of `RowMoves`. */
  ghost predicate RowLater(before: Row, after: Row) {
    && after.event == before.event && after.payloadDigest == before.payloadDigest
    && after.destination == before.destination && after.eventType == before.eventType
    && (before.state.Applied? || before.state.Ignored? ==>
          after.state == before.state && after.appliedRef == before.appliedRef)
    && (before.state.ReconciliationRequired? ==> after.state.ReconciliationRequired?)
    && (before.conflict.Some? ==> after.conflict.Some? && after.state == before.state)
  }

  lemma RowLaterChains(a: Row, b: Row, c: Row)
    requires RowLater(a, b) && RowMoves(b, c)
    ensures RowLater(a, c)
  {
  }

  lemma {:induction false} AbsorbFrom(s: Inbox, events: seq<Event>, id: string)
    requires Holds(s) && id in s.rows
    ensures Holds(Run(s, events)) && id in Run(s, events).rows && RowLater(s.rows[id], Run(s, events).rows[id])
  {
    if events != [] {
      var before, last := Run(s, events[..|events| - 1]), events[|events| - 1];
      AbsorbFrom(s, events[..|events| - 1], id);
      StepHolds(before, last);
      StepMovesRow(before, last, id);
      RowLaterChains(s.rows[id], before.rows[id], Step(before, last).rows[id]);
    }
  }

  /**
   Outcomes are absorbing: whatever happens after any reachable state, a stored event
   never changes, `applied`, `ignored` and reconciliation stay, and a recorded
   conflict freezes the state.
   */
  lemma {:induction false} OutcomesAbsorb(past: seq<Event>, more: seq<Event>, id: string)
    requires id in Run(EMPTY, past).rows
    ensures var later := Run(Run(EMPTY, past), more);
            id in later.rows && RowLater(Run(EMPTY, past).rows[id], later.rows[id])
  {
    RunHolds(past);
    AbsorbFrom(Run(EMPTY, past), more, id);
  }

  /**
   Every recorded conflict is in the state the stuck scan reads, or has its own alert, never
   both. The scan itself takes the first hundred rows of that state.
   */
  lemma {:induction false} ConflictIsReported(events: seq<Event>, id: string)
    requires id in Run(EMPTY, events).rows
    ensures var s := Run(EMPTY, events);
            var row := s.rows[id];
            && (row.conflict.Some? ==> (row.state.ReconciliationRequired? <==> id !in s.alerts))
            && (id in s.alerts ==> row.conflict.Some? && (row.state.Applied? || row.state.Ignored?))
  {
    RunHolds(events);
    assert RowHolds(Run(EMPTY, events), id, Run(EMPTY, events).rows[id]);
  }

  /** Completion of superseded work, or of work whose row has a conflict, changes no row. */
  lemma {:induction false} SupersededCompletion(events: seq<Event>, e: Event)
    requires e.Finish? || e.GiveUp?
    requires e.work in Run(EMPTY, events).works
    ensures var s := Run(EMPTY, events);
            var id := s.works[e.work].eventId;
            && id in s.rows
            && (Step(s, e).rows != s.rows ==> s.rows[id].workId == e.work && s.rows[id].state.Queued?)
            && (e.work !in Step(s, e).works || Step(s, e) == s)
  {
    RunHolds(events);
    var s := Run(EMPTY, events);
    assert RowHolds(s, s.works[e.work].eventId, s.rows[s.works[e.work].eventId]);
  }

  /** Attempts count 0, 1, 2, .. along every requeue chain, which has at most thirteen runs. */
  lemma {:induction false} AttemptsIncrease(events: seq<Event>, w: nat)
    requires w in Run(EMPTY, events).works
    ensures var work := Run(EMPTY, events).works[w];
            && |work.lineage| == work.attempt + 1 <= RETRY_MAX_ATTEMPTS
            && forall i :: 0 <= i < |work.lineage| ==> work.lineage[i] == i
  {
    RunHolds(events);
  }

  /** The backoff a chain has asked for is fixed by its attempt; a full chain asked for `60000 * (2^12 - 1)` ms. */
  lemma {:induction false} ChainDelay(events: seq<Event>, w: nat)
    requires w in Run(EMPTY, events).works
    ensures var work := Run(EMPTY, events).works[w];
            && work.waited == RETRY_INITIAL_BACKOFF_MS * (Pow2(work.attempt) - 1)
            && (|work.lineage| == RETRY_MAX_ATTEMPTS <==> work.waited == 60000 * 4095)
  {
    RunHolds(events);
    var work := Run(EMPTY, events).works[w];
    PowTwelve(work.attempt);
  }

  lemma PowTwelve(n: nat)
    requires n < RETRY_MAX_ATTEMPTS
    ensures Pow2(n) == [1, 2, 4, 8, 16, 32, 64, 128, 256, 512, 1024, 2048, 4096][n]
  {
    if n > 0 { PowTwelve(n - 1); }
  }

  // ---- a refusal that never goes away ----

  /** The calls made for an event of this kind end in this refusal. */
  predicate Refuses(kind: EventKind, x: Externals, refusal: Refusal) {
    match FirstRefusal(Gates(kind, x))
    case Some(first) => first == refusal
    case None => x.applied == ApplyRefused(refusal)
  }

  predicate RefusedAnswer(s: Inbox, e: Event, id: string, refusal: Refusal) {
    e.Answer? && e.work in s.works && s.works[e.work].eventId == id && id in s.rows
    ==> Refuses(s.rows[id].event.kind, e.x, refusal)
  }

  /** Whenever a run for this event had its calls answered, they refused it with this refusal. */
  predicate AlwaysRefused(events: seq<Event>, id: string, refusal: Refusal) {
    events == []
    || (AlwaysRefused(events[..|events| - 1], id, refusal)
        && RefusedAnswer(Run(EMPTY, events[..|events| - 1]), events[|events| - 1], id, refusal))
  }

  predicate Retryable(refusal: Refusal) { refusal.retryable || refusal.code == "stripe_setup_required" }

  /** The failure code that names the refusal in the row. */
  function CodeOf(refusal: Refusal): string {
    if Retryable(refusal) then "stripe_webhook_retries_exhausted:" + refusal.code else refusal.code
  }

  /** No run for the event can answer "accepted". */
  predicate RunRefused(work: Work, event: StripeEvent) {
    match work.phase
    case Reading(seen) =>
      seen.Some? && seen.value.event == event && !seen.value.state.Applied? && !seen.value.state.Ignored?
    case Returned(result) => !result.Accepted?
    case _ => true
  }

  /** The current run of a queued row is refused, and goes on or gives up by its attempt. */
  predicate CurrentRefused(work: Work, refusal: Refusal) {
    match work.phase
    case Idle => true
    case Reading(seen) => seen.Some? && seen.value.state.Queued?
    case TimerArmed => Retryable(refusal) && work.attempt + 1 < RETRY_MAX_ATTEMPTS
    case Returned(result) =>
      result == if Retryable(refusal) && work.attempt + 1 < RETRY_MAX_ATTEMPTS then RetryScheduled
                else NeedsReconciliation(CodeOf(refusal))
  }

  ghost predicate RowRefused(s: Inbox, id: string, refusal: Refusal)
    requires id in s.rows
  {
    var row := s.rows[id];
    && !row.state.Applied? && !row.state.Ignored?
    && (row.state.ReconciliationRequired? && row.conflict.None? ==> row.failureCode == Some(CodeOf(refusal)))
    && (forall w :: w in s.works && s.works[w].eventId == id ==> RunRefused(s.works[w], row.event))
    && (row.state.Queued? && InFlight(s, row, id) ==> CurrentRefused(s.works[row.workId], refusal))
  }

  ghost predicate StaysRefused(s: Inbox, id: string, refusal: Refusal) {
    id in s.rows && !s.rows[id].event.kind.AccountEvent? ==> RowRefused(s, id, refusal)
  }

  /** A row may change its state and its current work when every run for it stays refused and the current one is idle. */
  lemma RowStaysRefused(s: Inbox, after: Inbox, id: string, refusal: Refusal)
    requires StaysRefused(s, id, refusal) && id in s.rows && id in after.rows
    requires after.rows[id].event == s.rows[id].event
    requires after.rows[id].state.Applied? || after.rows[id].state.Ignored? ==> after.rows[id].state == s.rows[id].state
    requires after.rows[id].state.ReconciliationRequired? && after.rows[id].conflict.None? ==> after.rows[id] == s.rows[id]
    requires forall w :: w in after.works && after.works[w].eventId == id ==>
               after.works[w].phase.Idle? || (w in s.works && after.works[w] == s.works[w])
    requires after.rows[id].state.Queued? && InFlight(after, after.rows[id], id) ==>
               after.works[after.rows[id].workId].phase.Idle?
               || (s.rows[id].state.Queued? && after.rows[id].workId == s.rows[id].workId)
    ensures StaysRefused(after, id, refusal)
  {
  }

  lemma DeliverStaysRefused(s: Inbox, e: Event, id: string, refusal: Refusal)
    requires Holds(s) && StaysRefused(s, id, refusal) && e.Deliver?
    ensures StaysRefused(Step(s, e), id, refusal)
  {
    assert forall w :: w in s.works ==> w < s.next && s.works[w].eventId in s.rows;
    var after := Ingest(s, e.admitted, e.destination, e.event, e.correlationId, e.now).0;
    assert Step(s, e) == after;
    if id in s.rows {
      assert RowHolds(s, id, s.rows[id]);
      IngestAddsIdleWork(s, e.admitted, e.destination, e.event, e.correlationId, e.now);
      IngestMovesRow(s, e.admitted, e.destination, e.event, e.correlationId, e.now, id);
      DeliverMovesRow(s, e.admitted, e.destination, e.event, e.correlationId, e.now, id);
      RowStaysRefused(s, after, id, refusal);
    } else if id in after.rows {
      assert after.works == s.works[s.next := FreshWork(id)];
    }
  }

  /** A delivery adds at most idle work. */
  lemma IngestAddsIdleWork(s: Inbox, admitted: bool, destination: Destination, event: StripeEvent, cid: string, now: nat)
    requires WorkHolds(s)
    ensures var after := Ingest(s, admitted, destination, event, cid, now).0;
            forall w :: w in after.works ==>
              after.works[w].phase.Idle? || (w in s.works && after.works[w] == s.works[w])
  {
  }

  /** A delivery leaves a row as it was, marks it as in conflict, or queues it with fresh work. */
  lemma DeliverMovesRow(s: Inbox, admitted: bool, destination: Destination, event: StripeEvent,
                        cid: string, now: nat, id: string)
    requires RowsHold(s) && id in s.rows
    ensures var after := Ingest(s, admitted, destination, event, cid, now).0;
            && id in after.rows
            && (after.rows[id].state.Applied? || after.rows[id].state.Ignored? ==> after.rows[id].state == s.rows[id].state)
            && (|| after.rows[id] == s.rows[id]
                || (after.rows[id].conflict.Some? && !after.rows[id].state.Queued?)
                || (after.rows[id].state.Queued? && after.rows[id].workId in after.works
                    && after.works[after.rows[id].workId].phase.Idle?))
  {
    assert RowHolds(s, id, s.rows[id]);
  }

  /** What a refused run decides from what it read. */
  lemma RefusedDecision(seen: Seen, x: Externals, refusal: Refusal)
    requires !seen.event.kind.AccountEvent? && !seen.state.Applied? && !seen.state.Ignored?
    requires Refuses(seen.event.kind, x, refusal)
    ensures Decide(Some(seen), x) == if seen.state.Queued? then Retry(refusal)
                                     else Done(NeedsReconciliation("stripe_webhook_inbox_not_processable"))
  {
  }

  /** A phase change keeps the row refused when the run it moves stays refused. */
  lemma SetPhaseStaysRefused(s: Inbox, w: nat, phase: Phase, id: string, refusal: Refusal)
    requires Holds(s) && StaysRefused(s, id, refusal) && w in s.works
    requires s.works[w].eventId == id && id in s.rows && !s.rows[id].event.kind.AccountEvent? ==>
               var moved := s.works[w].(phase := phase);
               && RunRefused(moved, s.rows[id].event)
               && (s.rows[id].state.Queued? && s.rows[id].workId == w ==> CurrentRefused(moved, refusal))
    ensures StaysRefused(SetPhase(s, w, phase), id, refusal)
  {
  }

  /** The phase in which the answers to its calls leave a run. */
  function PhaseAfter(work: Work, x: Externals): Phase
    requires work.phase.Reading?
  {
    match Decide(work.phase.seen, x)
    case Done(result) => Returned(result)
    case Retry(refusal) =>
      match Reconciled(work.attempt, refusal)
      case Some(result) => Returned(result)
      case None => TimerArmed
  }

  lemma AnswerMovesPhase(s: Inbox, w: nat, x: Externals, now: nat)
    requires w in s.works && s.works[w].phase.Reading?
    ensures var after := AnswerRun(s, w, x, now);
            after.rows == s.rows && after.works == SetPhase(s, w, PhaseAfter(s.works[w], x)).works
  {
  }

  lemma AnswerStaysRefused(s: Inbox, w: nat, x: Externals, now: nat, id: string, refusal: Refusal)
    requires Holds(s) && StaysRefused(s, id, refusal) && RefusedAnswer(s, Answer(now, w, x), id, refusal)
    ensures StaysRefused(AnswerRun(s, w, x, now), id, refusal)
  {
    if w in s.works && s.works[w].phase.Reading? {
      AnswerMovesPhase(s, w, x, now);
      if s.works[w].eventId == id && !s.rows[id].event.kind.AccountEvent? {
        assert RunRefused(s.works[w], s.rows[id].event);
        RefusedDecision(s.works[w].phase.seen.value, x, refusal);
      }
      SetPhaseStaysRefused(s, w, PhaseAfter(s.works[w], x), id, refusal);
    }
  }

  lemma PhaseStaysRefused(s: Inbox, e: Event, id: string, refusal: Refusal)
    requires Holds(s) && StaysRefused(s, id, refusal) && (e.ReadRow? || e.ReturnRetry? || e.Rerun?)
    ensures StaysRefused(Step(s, e), id, refusal)
  {
    if e.work in s.works {
      assert s.works[e.work].eventId in s.rows;
      if Step(s, e) != s { SetPhaseStaysRefused(s, e.work, Step(s, e).works[e.work].phase, id, refusal); }
    }
  }

  /** The row whose current work ends without an acceptance. */
  lemma CompletedStaysRefused(s: Inbox, w: nat, result: Completion, now: nat, id: string, refusal: Refusal)
    requires Holds(s) && StaysRefused(s, id, refusal) && w in s.works
    requires s.works[w].eventId == id && id in s.rows && !s.rows[id].event.kind.AccountEvent? && s.rows[id].workId == w
             && s.rows[id].state.Queued? ==>
               || result.WorkFailed? || result.WorkCanceled? || result.result.RetryScheduled?
               || result.result == NeedsReconciliation(CodeOf(refusal))
    ensures StaysRefused(Completing(s, w, result, now), id, refusal)
  {
    if id in s.rows { assert RowHolds(s, id, s.rows[id]); }
  }

  lemma FinishStaysRefused(s: Inbox, e: Event, id: string, refusal: Refusal)
    requires Holds(s) && StaysRefused(s, id, refusal) && (e.Finish? || e.GiveUp?)
    ensures StaysRefused(Step(s, e), id, refusal)
  {
    if e.work in s.works {
      match e
      case Finish(now, w) =>
        if s.works[w].phase.Returned? {
          CompletedStaysRefused(s, w, Success(s.works[w].phase.result), now, id, refusal);
        }
      case GiveUp(now, w, canceled) =>
        CompletedStaysRefused(s, w, if canceled then WorkCanceled else WorkFailed, now, id, refusal);
    }
  }

  lemma FireStaysRefused(s: Inbox, t: nat, now: nat, id: string, refusal: Refusal)
    requires Holds(s) && StaysRefused(s, id, refusal)
    ensures StaysRefused(Step(s, Fire(now, t)), id, refusal)
  {
    if id in s.rows {
      assert RowHolds(s, id, s.rows[id]);
      RowStaysRefused(s, Step(s, Fire(now, t)), id, refusal);
    }
  }

  lemma {:induction false} RunStaysRefused(events: seq<Event>, id: string, refusal: Refusal)
    requires AlwaysRefused(events, id, refusal)
    ensures Holds(Run(EMPTY, events)) && StaysRefused(Run(EMPTY, events), id, refusal)
  {
    RunHolds(events);
    if events != [] {
      var before, last := events[..|events| - 1], events[|events| - 1];
      RunStaysRefused(before, id, refusal);
      match last
      case Deliver(_, _, _, _, _) => DeliverStaysRefused(Run(EMPTY, before), last, id, refusal);
      case Answer(now, w, x) => AnswerStaysRefused(Run(EMPTY, before), w, x, now, id, refusal);
      case Fire(now, t) => FireStaysRefused(Run(EMPTY, before), t, now, id, refusal);
      case Finish(_, _) => FinishStaysRefused(Run(EMPTY, before), last, id, refusal);
      case GiveUp(_, _, _) => FinishStaysRefused(Run(EMPTY, before), last, id, refusal);
      case _ => PhaseStaysRefused(Run(EMPTY, before), last, id, refusal);
    }
  }

  /**
   A payment event whose calls always end in one refusal is never applied or ignored.
   If its row has no conflict and needs reconciliation, the row names that refusal.
   When the queued row's current run delivers its result, the row needs reconciliation
   exactly if the refusal is final or the run was attempt twelve; otherwise the row is
   unchanged and a timer is pending.
   */
  lemma {:induction false} PersistentRefusal(events: seq<Event>, id: string, refusal: Refusal, now: nat)
    requires AlwaysRefused(events, id, refusal) && id in Run(EMPTY, events).rows
    requires !Run(EMPTY, events).rows[id].event.kind.AccountEvent?
    ensures var s := Run(EMPTY, events);
            var row := s.rows[id];
            && !row.state.Applied? && !row.state.Ignored?
            && (row.state.ReconciliationRequired? && row.conflict.None? ==> row.failureCode == Some(CodeOf(refusal)))
            && (row.state.Queued? && InFlight(s, row, id) && s.works[row.workId].phase.Returned? ==>
                  var after := Step(s, Finish(now, row.workId));
                  id in after.rows &&
                  if !Retryable(refusal) || s.works[row.workId].attempt == 12 then
                    after.rows[id] == row.(state := ReconciliationRequired, failureCode := Some(CodeOf(refusal)),
                                           updatedAt := now, completedAt := Some(now))
                  else after.rows[id] == row && TimerPending(after, id))
  {
    RunStaysRefused(events, id, refusal);
    var s := Run(EMPTY, events);
    assert RowHolds(s, id, s.rows[id]);
    if s.rows[id].state.Queued? && InFlight(s, s.rows[id], id) && s.works[s.rows[id].workId].phase.Returned? {
      StepHolds(s, Finish(now, s.rows[id].workId));
      assert RowHolds(Step(s, Finish(now, s.rows[id].workId)), id, Step(s, Finish(now, s.rows[id].workId)).rows[id]);
    }
  }

  // ---- how such a refusal ends ----

  lemma {:induction false} RunConcat(s: Inbox, a: seq<Event>, b: seq<Event>)
    ensures Run(s, a + b) == Run(Run(s, a), b)
  {
    if b == [] {
      assert a + b == a;
    } else {
      assert (a + b)[..|a + b| - 1] == a + b[..|b| - 1];
      RunConcat(s, a, b[..|b| - 1]);
    }
  }

  /** The current work of a queued payment event has not started. */
  predicate AboutToRun(s: Inbox, id: string) {
    && id in s.rows && s.rows[id].state.Queued? && s.rows[id].conflict.None?
    && !s.rows[id].event.kind.AccountEvent?
    && InFlight(s, s.rows[id], id) && s.works[s.rows[id].workId].phase.Idle?
    && s.works[s.rows[id].workId].attempt < RETRY_MAX_ATTEMPTS
  }

  /** A refused run arms its timer. */
  lemma RefusalArms(s: Inbox, id: string, x: Externals, refusal: Refusal)
    requires AboutToRun(s, id) && Refuses(s.rows[id].event.kind, x, refusal) && Retryable(refusal)
    requires s.works[s.rows[id].workId].attempt + 1 < RETRY_MAX_ATTEMPTS
    ensures var w := s.rows[id].workId;
            Step(Step(s, ReadRow(0, w)), Answer(0, w, x))
            == ArmTimer(SetPhase(s, w, TimerArmed), RetryTimer(s.works[w], 0))
  {
    var w := s.rows[id].workId;
    var read := Step(s, ReadRow(0, w));
    assert read.works[w].phase == Reading(ReadFor(s, id));
    RefusedDecision(read.works[w].phase.seen.value, x, refusal);
    assert SetPhase(read, w, TimerArmed) == SetPhase(s, w, TimerArmed);
  }

  /** An armed run returns, and its result leaves the row alone. */
  lemma ArmedReturns(s: Inbox, w: nat)
    requires w in s.works && s.works[w].phase.TimerArmed?
    ensures Step(Step(s, ReturnRetry(0, w)), Finish(0, w)) == s.(works := Remove(s.works, w))
  {
    var returned := Step(s, ReturnRetry(0, w));
    assert Remove(returned.works, w) == Remove(s.works, w);
    var id := s.works[w].eventId;
    assert id in s.rows ==> s.rows[id := s.rows[id]] == s.rows;
  }

  /** One refused run: its row stays queued, and the timer it armed is pending. */
  lemma RefusedRun(s: Inbox, id: string, x: Externals, refusal: Refusal) returns (run: seq<Event>)
    requires AboutToRun(s, id) && Refuses(s.rows[id].event.kind, x, refusal) && Retryable(refusal)
    requires s.works[s.rows[id].workId].attempt + 1 < RETRY_MAX_ATTEMPTS && s.next !in s.works
    ensures var w := s.rows[id].workId;
            && Run(s, run).rows == s.rows && Run(s, run).works == Remove(s.works, w) && Run(s, run).next == s.next + 1
            && Run(s, run).timers == s.timers[s.next := RetryTimer(s.works[w], 0)]
  {
    var w := s.rows[id].workId;
    run := [ReadRow(0, w), Answer(0, w, x), ReturnRetry(0, w), Finish(0, w)];
    RefusalArms(s, id, x, refusal);
    var armed := ArmTimer(SetPhase(s, w, TimerArmed), RetryTimer(s.works[w], 0));
    ArmedReturns(armed, w);
    assert Remove(armed.works, w) == Remove(s.works, w);
    RunList(s, run[0], run[1], run[2], run[3]);
  }

  /** A refused run that arms a timer, and the requeue that follows it. */
  lemma RefusedRound(s: Inbox, id: string, x: Externals, refusal: Refusal) returns (round: seq<Event>)
    requires AboutToRun(s, id) && Refuses(s.rows[id].event.kind, x, refusal) && Retryable(refusal)
    requires s.works[s.rows[id].workId].attempt + 1 < RETRY_MAX_ATTEMPTS
    requires forall w :: w in s.works ==> w < s.next
    ensures var after := Run(s, round);
            && AboutToRun(after, id) && (forall w :: w in after.works ==> w < after.next)
            && after.works[after.rows[id].workId].attempt == s.works[s.rows[id].workId].attempt + 1
            && after.rows[id] == s.rows[id].(workId := after.rows[id].workId, updatedAt := after.rows[id].updatedAt)
  {
    var run := RefusedRun(s, id, x, refusal);
    var fire := Fire(Backoff(s.works[s.rows[id].workId].attempt), s.next);
    round := run + [fire];
    assert round[..|round| - 1] == run;
  }

  lemma RunList(s: Inbox, a: Event, b: Event, c: Event, d: Event)
    ensures Run(s, [a, b, c]) == Step(Step(Step(s, a), b), c)
    ensures Run(s, [a, b, c, d]) == Step(Step(Step(Step(s, a), b), c), d)
  {
    assert [a, b, c, d][..3] == [a, b, c];
    assert [a, b, c][..2] == [a, b];
    assert [a, b][..1] == [a];
    assert Run(s, [a]) == Step(s, a);
    assert Run(s, [a, b]) == Step(Run(s, [a]), b);
  }

  /** A refused run of the last attempt ends in reconciliation. */
  lemma LastRefusal(s: Inbox, id: string, x: Externals, refusal: Refusal) returns (events: seq<Event>)
    requires AboutToRun(s, id) && Refuses(s.rows[id].event.kind, x, refusal) && Retryable(refusal)
    requires s.works[s.rows[id].workId].attempt + 1 == RETRY_MAX_ATTEMPTS
    ensures id in Run(s, events).rows
    ensures Run(s, events).rows[id] == s.rows[id].(state := ReconciliationRequired, completedAt := Some(0), updatedAt := 0,
                                                   failureCode := Some(CodeOf(refusal)))
  {
    var w := s.rows[id].workId;
    events := [ReadRow(0, w), Answer(0, w, x), Finish(0, w)];
    var read := Step(s, events[0]);
    assert read.works[w].phase == Reading(ReadFor(s, id));
    RefusedDecision(read.works[w].phase.seen.value, x, refusal);
    assert Step(read, events[1]) == SetPhase(read, w, Returned(NeedsReconciliation(CodeOf(refusal))));
    RunList(s, events[0], events[1], events[2], events[2]);
  }

  /** From any run about to start, the chain of refused runs does get to reconciliation that names the refusal. */
  lemma {:induction false} RefusalCanBeReconciled(s: Inbox, id: string, x: Externals, refusal: Refusal)
    returns (events: seq<Event>)
    requires AboutToRun(s, id) && Refuses(s.rows[id].event.kind, x, refusal) && Retryable(refusal)
    requires forall w :: w in s.works ==> w < s.next
    ensures id in Run(s, events).rows
    ensures Run(s, events).rows[id] == s.rows[id].(
              state := ReconciliationRequired, completedAt := Some(0),
              workId := Run(s, events).rows[id].workId, updatedAt := Run(s, events).rows[id].updatedAt,
              failureCode := Some("stripe_webhook_retries_exhausted:" + refusal.code))
    decreases RETRY_MAX_ATTEMPTS - s.works[s.rows[id].workId].attempt
  {
    var w := s.rows[id].workId;
    if s.works[w].attempt + 1 < RETRY_MAX_ATTEMPTS {
      var round := RefusedRound(s, id, x, refusal);
      var rest := RefusalCanBeReconciled(Run(s, round), id, x, refusal);
      RunConcat(s, round, rest);
      events := round + rest;
    } else {
      events := LastRefusal(s, id, x, refusal);
    }
  }
}
