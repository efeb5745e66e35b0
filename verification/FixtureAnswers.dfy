/** What each action of the fixture market answers and stores, mode by mode. */
module FixtureAnswers {
  import opened Wrappers
  import opened FixtureMarket

  // ---- placing a call ----

  /** Each refusal of a call, with exactly the case it stands for, in the order they are looked for. */
  lemma CallRefusedIff(s: Session, id: string, ref: QuoteRef, key: string, now: int)
    ensures var answer := CallFor(s, id, ref, key, now).1;
            var known := key != "" && ref in s.quotes;
            var unused := known && key !in s.keys;
            var used := known && key in s.keys;
            var live := unused && now < s.quotes[ref].quote.expiresAt;
            && (answer == Thrown("schema") <==> key == "")
            && (used ==> (s.keys[key].material.quoteRef != ref || s.keys[key].material.input != s.quotes[ref].input
                          ==> answer == CallResult(Refused("idempotency_conflict"))))
            && (key != "" && ref !in s.quotes ==> answer == CallResult(Refused("operation_not_found")))
            && (unused && !live ==> answer == CallResult(Refused("price_changed")))
            && (live ==>
                  && (s.mode in {Approval, Guest, Expired} ==> answer == CallResult(Refused("authority_required")))
                  && (s.mode == Unfunded ==> answer == CallResult(Refused("insufficient_balance")))
                  && (s.mode == Changed ==> answer == CallResult(Refused("price_changed"))))
  {
  }

  /** The call that a dispatch places: its reference is made of session, key, Quote and input. */
  function PlacedCall(s: Session, id: string, ref: QuoteRef, key: string): CallRef
    requires ref in s.quotes
  {
    CallDigest(id, key, Material(ref, s.quotes[ref].input))
  }

  predicate Dispatches(s: Session, ref: QuoteRef, key: string, now: int) {
    && key != "" && key !in s.keys && ref in s.quotes && now < s.quotes[ref].quote.expiresAt
    && s.mode !in {Approval, Guest, Expired, Unfunded, Changed}
  }

  /**
   What a dispatching call answers, mode by mode, and what a status query then shows: pending
   and uncertain calls are completed already when they are asked for, held ones are not.
   */
  lemma DispatchAnswers(s: Session, id: string, ref: QuoteRef, key: string, now: int, requestId: string, later: int)
    requires Dispatches(s, ref, key, now)
    ensures var (after, answer) := CallFor(s, id, ref, key, now);
            var call, input := PlacedCall(s, id, ref, key), s.quotes[ref].input;
            var status := ExecuteOn(after, id, Status(call), requestId, later).1;
            var completed := CompletedCall(call, input.toolRef, input.input, now);
            var pending, unknown := PendingCall(call, input.toolRef), OutcomeUnknown(call, input.toolRef, now);
            && answer == CallResult(if s.mode in {PendingMode, HeldPending} then pending
                                    else if s.mode in {UncertainMode, HeldUncertain} then unknown else completed)
            && status == CallResult(if s.mode == HeldPending then pending
                                    else if s.mode == HeldUncertain then unknown else completed)
  {
  }

  /** Everything a dispatch stores. */
  lemma DispatchStores(s: Session, id: string, ref: QuoteRef, key: string, now: int)
    requires Dispatches(s, ref, key, now)
    ensures var after := CallFor(s, id, ref, key, now).0;
            var call, input := PlacedCall(s, id, ref, key), s.quotes[ref].input;
            && after.dispatches == s.dispatches + 1
            && after.keys == s.keys[key := KeyRow(Material(ref, input), call)]
            && after.completed == s.completed[call := CompletedCall(call, input.toolRef, input.input, now)]
            && call in after.calls && after.calls == s.calls[call := after.calls[call]]
            && after.mode == s.mode && after.quotes == s.quotes && after.events == s.events
  {
  }

  // ---- quoting ----

  /** A Quote is refused by the mode first and an unknown Tool second, and otherwise committed. */
  lemma QuoteAnswers(s: Session, id: string, requestId: string, input: QuoteInput, now: int)
    ensures var (after, answer) := QuoteFor(s, id, requestId, input, now);
            var ref := QuoteDigest(id, requestId, input);
            var quotes := s.mode !in {Guest, Expired, Unfunded} && (input.toolRef == RESEARCH_REF || input.toolRef == AUDIT_REF);
            && (s.mode in {Guest, Expired} ==> answer == QuoteRefused("grant_not_found"))
            && (s.mode == Unfunded ==> answer == QuoteRefused("insufficient_balance"))
            && (s.mode !in {Guest, Expired, Unfunded} && input.toolRef != RESEARCH_REF && input.toolRef != AUDIT_REF
                ==> answer == QuoteRefused("tool_not_found"))
            && (!quotes || ref in s.quotes ==> after == s)
            && (quotes && ref in s.quotes ==> answer == Committed(s.quotes[ref].quote))
            && (quotes && ref !in s.quotes ==>
                  && answer == Committed(Quote(ref, input.toolRef, now + 60000))
                  && after == s.(quotes := s.quotes[ref := QuoteRow(Quote(ref, input.toolRef, now + 60000), input)]))
  {
  }

  // ---- searching ----

  function LowerLetter(c: char): char { if 'A' <= c <= 'Z' then c - 'A' + 'a' else c }

  /** The word "audit" stands at position `i`, in any case. */
  predicate AuditAt(q: string, i: nat) {
    && i + 5 <= |q| && LowerLetter(q[i]) == 'a' && LowerLetter(q[i + 1]) == 'u' && LowerLetter(q[i + 2]) == 'd'
    && LowerLetter(q[i + 3]) == 'i' && LowerLetter(q[i + 4]) == 't'
  }

  /** The query names an audit exactly if the word stands somewhere in it. */
  lemma {:induction false} ContainsAuditIff(query: string)
    ensures ContainsAudit(query) <==> exists i: nat :: AuditAt(query, i)
  {
    if |query| >= 5 {
      ContainsAuditIff(query[1..]);
      assert IsAudit(query[..5]) <==> AuditAt(query, 0);
      if i: nat :| AuditAt(query, i) {
        if i > 0 { assert AuditAt(query[1..], i - 1); }
      }
      if i: nat :| AuditAt(query[1..], i) { assert AuditAt(query, i + 1); }
    }
  }

  /** A search finds the audit Tool for such a query and the research Tool for any other, or nothing in an empty market. */
  lemma SearchAnswers(s: Session, id: string, query: string, requestId: string, now: int)
    ensures var answer := ExecuteOn(s, id, Search(query), requestId, now).1;
            && answer.Found?
            && (s.mode == Empty ==> answer.toolRefs == [])
            && (s.mode != Empty && (exists i: nat :: AuditAt(query, i)) ==> answer.toolRefs == [AUDIT_REF])
            && (s.mode != Empty && !(exists i: nat :: AuditAt(query, i)) ==> answer.toolRefs == [RESEARCH_REF])
  {
    ContainsAuditIff(query);
  }

  // ---- every action, and the controller ----

  /** Whatever an action answers, it was recorded first, and only a Quote and a Call change anything else. */
  lemma EveryActionIsRecorded(s: Session, id: string, action: Action, requestId: string, now: int)
    ensures var (after, answer) := ExecuteOn(s, id, action, requestId, now);
            && after.events == s.events + [action] && after.mode == s.mode
            && (!action.QuoteTool? ==> after.quotes == s.quotes)
            && (!action.CallTool? ==>
                  && after.calls == s.calls && after.keys == s.keys && after.completed == s.completed
                  && after.dispatches == s.dispatches)
            && (action.Malformed? ==> answer == Thrown("schema"))
            && (action.OtherAction? ==> answer == Thrown("trial_action_not_allowed"))
            && (action.Status? ==>
                  if action.callRef in s.calls then answer == CallResult(s.calls[action.callRef])
                  else answer == Thrown("trial_call_not_found"))
            && (action.CallTool? ==> answer == CallFor(s, id, action.quoteRef, action.key, now).1)
            && (action.QuoteTool? ==> answer == QuoteFor(s, id, requestId, action.input, now).1)
  {
  }

  /** What the controller does to a session. */
  lemma ControllerWrites(m: Sessions, id: string, mode: Mode, now: int)
    ensures var made := Step(m, Create(id, mode));
            && (1 <= |id| <= 100 && id !in m ==>
                  && id in made && made == m[id := made[id]] && made[id].mode == mode && made[id].events == []
                  && made[id].quotes == map[] && made[id].calls == map[] && made[id].keys == map[]
                  && made[id].completed == map[] && made[id].dispatches == 0)
            && (|id| < 1 || |id| > 100 || id in m ==> made == m)
    ensures id in m ==>
              var resumed, expired, done := Step(m, Resume(id)), Step(m, ExpireQuotes(id, now)), Step(m, CompleteCalls(id));
              && resumed == m[id := m[id].(mode := Active)]
              && id in expired && expired == m[id := m[id].(quotes := expired[id].quotes)]
              && expired[id].quotes.Keys == m[id].quotes.Keys
              && (forall q :: q in m[id].quotes ==>
                    && expired[id].quotes[q].quote.expiresAt == now - 1 && expired[id].quotes[q].input == m[id].quotes[q].input
                    && expired[id].quotes[q].quote.quoteRef == m[id].quotes[q].quote.quoteRef
                    && expired[id].quotes[q].quote.toolRef == m[id].quotes[q].quote.toolRef)
              && id in done && done == m[id := m[id].(calls := done[id].calls)]
              && done[id].calls.Keys == m[id].calls.Keys + m[id].completed.Keys
              && (forall r :: r in done[id].calls ==>
                    done[id].calls[r] == if r in m[id].completed then m[id].completed[r] else m[id].calls[r])
  {
  }
}
