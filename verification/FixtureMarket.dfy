/**
 The fixture market of the chat trial: per-session maps of Quotes, idempotency keys
 and Calls behind one `execute`. Digests are taken to be injective, so a reference
 is the material it digests. A schema failure throws after the event was recorded.
 */
module FixtureMarket {
  import opened Wrappers

  datatype Mode =
    | Active | Guest | Expired | Unfunded | Approval | PendingMode | UncertainMode
    | HeldPending | HeldUncertain | Empty | Changed

  datatype QuoteInput = QuoteInput(toolRef: string, input: string)
  datatype QuoteRef = QuoteDigest(session: string, requestId: string, input: QuoteInput) | OtherQuoteRef(text: string)
  datatype Quote = Quote(quoteRef: QuoteRef, toolRef: string, expiresAt: int)
  datatype QuoteRow = QuoteRow(quote: Quote, input: QuoteInput)

  datatype Material = Material(quoteRef: QuoteRef, input: QuoteInput)
  datatype CallRef = CallDigest(session: string, key: string, material: Material) | OtherCallRef(text: string)
  datatype KeyRow = KeyRow(material: Material, callRef: CallRef)

  datatype Result =
    | CompletedCall(callRef: CallRef, toolRef: string, input: string, observedAt: int)
    | PendingCall(callRef: CallRef, toolRef: string)
    | OutcomeUnknown(callRef: CallRef, toolRef: string, requiredAt: int)
    | Refused(code: string)

  datatype Action =
    | Search(query: string)
    | QuoteTool(input: QuoteInput)
    | CallTool(quoteRef: QuoteRef, key: string)
    | Status(callRef: CallRef)
    | Malformed(action: string)   // the arguments fail the action's schema
    | OtherAction(action: string)

  datatype Answer =
    | Found(toolRefs: seq<string>)
    | Committed(quote: Quote)
    | CallResult(result: Result)
    | QuoteRefused(code: string)
    | Thrown(message: string)

  datatype Session = Session(
    mode: Mode, events: seq<Action>, quotes: map<QuoteRef, QuoteRow>, calls: map<CallRef, Result>,
    keys: map<string, KeyRow>, dispatches: nat, completed: map<CallRef, Result>)

  type Sessions = map<string, Session>

  const RESEARCH_REF := "operation:v1:aaaaaaaaaaaaaaaaaaaaaaaaaaaaaaaaaaaaaaaaaaaaaaaaaaaaaaaaaaaaaaaa"
  const AUDIT_REF := "operation:v1:bbbbbbbbbbbbbbbbbbbbbbbbbbbbbbbbbbbbbbbbbbbbbbbbbbbbbbbbbbbbbbbb"

  // ---- what each operation does ----

  function NewSession(mode: Mode): Session { Session(mode, [], map[], map[], map[], 0, map[]) }

  predicate IsAudit(w: string) {
    |w| == 5 && w[0] in "aA" && w[1] in "uU" && w[2] in "dD" && w[3] in "iI" && w[4] in "tT"
  }

  /** The test `/audit/iu`. */
  predicate ContainsAudit(query: string) { |query| >= 5 && (IsAudit(query[..5]) || ContainsAudit(query[1..])) }

  function SearchTools(s: Session, query: string): Answer {
    Found(if s.mode == Empty then [] else [if ContainsAudit(query) then AUDIT_REF else RESEARCH_REF])
  }

  function QuoteRefusal(s: Session, toolRef: string): Option<string> {
    if s.mode == Guest || s.mode == Expired then Some("grant_not_found")
    else if s.mode == Unfunded then Some("insufficient_balance")
    else if toolRef != RESEARCH_REF && toolRef != AUDIT_REF then Some("tool_not_found")
    else None
  }

  function QuoteFor(s: Session, id: string, requestId: string, input: QuoteInput, now: int): (Session, Answer) {
    var refusal := QuoteRefusal(s, input.toolRef);
    var ref := QuoteDigest(id, requestId, input);
    if refusal.Some? then (s, QuoteRefused(refusal.value))
    else if ref in s.quotes then (s, Committed(s.quotes[ref].quote))
    else
      var quote := Quote(ref, input.toolRef, now + 60000);
      (s.(quotes := s.quotes[ref := QuoteRow(quote, input)]), Committed(quote))
  }

  /** Why a fresh key may not dispatch under this Quote. */
  function CallRefusal(s: Session, row: QuoteRow, now: int): Option<string> {
    if row.quote.expiresAt <= now then Some("price_changed")
    else if s.mode == Approval || s.mode == Guest || s.mode == Expired then Some("authority_required")
    else if s.mode == Unfunded then Some("insufficient_balance")
    else if s.mode == Changed then Some("price_changed")
    else None
  }

  /** The answer the caller sees, which held modes also store. */
  function Shown(mode: Mode, completed: Result, callRef: CallRef, toolRef: string, now: int): Result {
    if mode == PendingMode || mode == HeldPending then PendingCall(callRef, toolRef)
    else if mode == UncertainMode || mode == HeldUncertain then OutcomeUnknown(callRef, toolRef, now)
    else completed
  }

  function Dispatch(s: Session, id: string, key: string, row: QuoteRow, material: Material, now: int): (Session, Answer) {
    var callRef := CallDigest(id, key, material);
    var done := CompletedCall(callRef, row.input.toolRef, row.input.input, now);
    var shown := Shown(s.mode, done, callRef, row.input.toolRef, now);
    var held := s.mode == HeldPending || s.mode == HeldUncertain;
    (s.(completed := s.completed[callRef := done], calls := s.calls[callRef := if held then shown else done],
        keys := s.keys[key := KeyRow(material, callRef)], dispatches := s.dispatches + 1),
     CallResult(shown))
  }

  function CallFor(s: Session, id: string, quoteRef: QuoteRef, key: string, now: int): (Session, Answer) {
    if key == "" then (s, Thrown("schema"))
    else if quoteRef !in s.quotes then (s, CallResult(Refused("operation_not_found")))
    else
      var row := s.quotes[quoteRef];
      var material := Material(quoteRef, row.input);
      if key in s.keys then
        if s.keys[key].material != material then (s, CallResult(Refused("idempotency_conflict")))
        else if s.keys[key].callRef in s.calls then (s, CallResult(s.calls[s.keys[key].callRef]))
        else (s, Thrown("undefined"))
      else
        var refusal := CallRefusal(s, row, now);
        if refusal.Some? then (s, CallResult(Refused(refusal.value))) else Dispatch(s, id, key, row, material, now)
  }

  function ExecuteOn(before: Session, id: string, action: Action, requestId: string, now: int): (Session, Answer) {
    var s := before.(events := before.events + [action]);
    match action
    case Search(query) => (s, SearchTools(s, query))
    case QuoteTool(input) => QuoteFor(s, id, requestId, input, now)
    case CallTool(quoteRef, key) => CallFor(s, id, quoteRef, key, now)
    case Status(callRef) => (s, if callRef in s.calls then CallResult(s.calls[callRef]) else Thrown("trial_call_not_found"))
    case Malformed(_) => (s, Thrown("schema"))
    case OtherAction(_) => (s, Thrown("trial_action_not_allowed"))
  }

  function Completing(s: Session): Session { s.(calls := s.calls + s.completed) }

  function Expiring(s: Session, now: int): Session {
    s.(quotes := map q | q in s.quotes :: s.quotes[q].(quote := s.quotes[q].quote.(expiresAt := now - 1)))
  }

  datatype Op =
    | Create(id: string, mode: Mode)
    | Resume(id: string)
    | CompleteCalls(id: string)
    | ExpireQuotes(id: string, now: int)
    | Execute(id: string, action: Action, requestId: string, now: int)

  /** The schema of a session id: 1 to 100 characters. */
  predicate IsSessionId(id: string) { 1 <= |id| <= 100 }

  function Step(m: Sessions, op: Op): Sessions {
    match op
    case Create(id, mode) => if !IsSessionId(id) || id in m then m else m[id := NewSession(mode)]
    case Resume(id) => if id in m then m[id := m[id].(mode := Active)] else m
    case CompleteCalls(id) => if id in m then m[id := Completing(m[id])] else m
    case ExpireQuotes(id, now) => if id in m then m[id := Expiring(m[id], now)] else m
    case Execute(id, action, requestId, now) =>
      if id in m then m[id := ExecuteOn(m[id], id, action, requestId, now).0] else m
  }

  function Run(m: Sessions, ops: seq<Op>): Sessions {
    if ops == [] then m else Step(Run(m, ops[..|ops| - 1]), ops[|ops| - 1])
  }

  // ---- the market object ----

  /** Sets every entry of `entries` over `before`, one at a time. */
  method SetAll<K(==), V>(before: map<K, V>, entries: map<K, V>) returns (after: map<K, V>)
    ensures after == before + entries
  {
    after := before;
    var todo := entries.Keys;
    while todo != {}
      invariant todo <= entries.Keys
      invariant forall k :: k in after <==> k in before || (k in entries && k !in todo)
      invariant forall k :: k in after ==> after[k] == if k in entries && k !in todo then entries[k] else before[k]
      decreases |todo|
    {
      var k :| k in todo;
      after := after[k := entries[k]];
      todo := todo - {k};
    }
  }

  class Market {
    var sessions: Sessions

    constructor ()
      ensures sessions == map[]
    {
      sessions := map[];
    }

    method CreateSession(id: string, mode: Mode) returns (thrown: Option<string>)
      modifies this
      ensures sessions == Step(old(sessions), Create(id, mode))
      ensures thrown.None? <==> IsSessionId(id) && id !in old(sessions)
    {
      if !IsSessionId(id) { return Some("schema"); }
      if id in sessions { return Some("trial_session_exists"); }
      sessions := sessions[id := NewSession(mode)];
      thrown := None;
    }

    method ResumeSession(id: string) returns (thrown: Option<string>)
      modifies this
      ensures sessions == Step(old(sessions), Resume(id)) && (thrown.None? <==> id in old(sessions))
    {
      if id !in sessions { return Some("trial_session_not_found"); }
      sessions := sessions[id := sessions[id].(mode := Active)];
      thrown := None;
    }

    /** Copies every completed result over the call's current one. */
    method Complete(id: string) returns (thrown: Option<string>)
      modifies this
      ensures sessions == Step(old(sessions), CompleteCalls(id)) && (thrown.None? <==> id in old(sessions))
    {
      if id !in sessions { return Some("trial_session_not_found"); }
      var session := sessions[id];
      var calls := SetAll(session.calls, session.completed);
      sessions := sessions[id := session.(calls := calls)];
      thrown := None;
    }

    method Expire(id: string, now: int) returns (thrown: Option<string>)
      modifies this
      ensures sessions == Step(old(sessions), ExpireQuotes(id, now)) && (thrown.None? <==> id in old(sessions))
    {
      if id !in sessions { return Some("trial_session_not_found"); }
      var session := sessions[id];
      var quotes, todo := session.quotes, session.quotes.Keys;
      while todo != {}
        invariant todo <= session.quotes.Keys == quotes.Keys
        invariant forall q :: q in quotes ==>
                    quotes[q] == if q in todo then session.quotes[q]
                                 else session.quotes[q].(quote := session.quotes[q].quote.(expiresAt := now - 1))
        decreases |todo|
      {
        var ref :| ref in todo;
        quotes := quotes[ref := quotes[ref].(quote := quotes[ref].quote.(expiresAt := now - 1))];
        todo := todo - {ref};
      }
      assert session.(quotes := quotes) == Expiring(session, now);
      sessions := sessions[id := session.(quotes := quotes)];
      thrown := None;
    }

    method ExecuteAction(id: string, action: Action, requestId: string, now: int) returns (answer: Answer)
      modifies this
      ensures if id in old(sessions) then
                && answer == ExecuteOn(old(sessions)[id], id, action, requestId, now).1
                && sessions == Step(old(sessions), Execute(id, action, requestId, now))
              else answer == Thrown("trial_session_not_found") && sessions == old(sessions)
    {
      if id !in sessions { return Thrown("trial_session_not_found"); }
      var session := sessions[id];
      session := session.(events := session.events + [action]);
      sessions := sessions[id := session];
      match action {
        case Search(query) => answer := SearchTools(session, query);
        case QuoteTool(input) => answer := CommitQuote(id, requestId, input, now);
        case CallTool(quoteRef, key) => answer := PlaceCall(id, quoteRef, key, now);
        case Status(callRef) =>
          if callRef !in session.calls { return Thrown("trial_call_not_found"); }
          answer := CallResult(session.calls[callRef]);
        case Malformed(_) => answer := Thrown("schema");
        case OtherAction(_) => answer := Thrown("trial_action_not_allowed");
      }
    }

    method CommitQuote(id: string, requestId: string, input: QuoteInput, now: int) returns (answer: Answer)
      requires id in sessions
      modifies this
      ensures answer == QuoteFor(old(sessions)[id], id, requestId, input, now).1
      ensures sessions == old(sessions)[id := QuoteFor(old(sessions)[id], id, requestId, input, now).0]
    {
      var session := sessions[id];
      if session.mode == Guest || session.mode == Expired { return QuoteRefused("grant_not_found"); }
      if session.mode == Unfunded { return QuoteRefused("insufficient_balance"); }
      if input.toolRef !in [RESEARCH_REF, AUDIT_REF] { return QuoteRefused("tool_not_found"); }
      var ref := QuoteDigest(id, requestId, input);
      if ref in session.quotes { return Committed(session.quotes[ref].quote); }
      var quote := Quote(ref, input.toolRef, now + 60000);
      sessions := sessions[id := session.(quotes := session.quotes[ref := QuoteRow(quote, input)])];
      answer := Committed(quote);
    }

    method PlaceCall(id: string, quoteRef: QuoteRef, key: string, now: int) returns (answer: Answer)
      requires id in sessions
      modifies this
      ensures answer == CallFor(old(sessions)[id], id, quoteRef, key, now).1
      ensures sessions == old(sessions)[id := CallFor(old(sessions)[id], id, quoteRef, key, now).0]
    {
      var session := sessions[id];
      if key == "" { return Thrown("schema"); }
      if quoteRef !in session.quotes { return CallResult(Refused("operation_not_found")); }
      var selected := session.quotes[quoteRef];
      var material := Material(quoteRef, selected.input);
      if key in session.keys {
        var previous := session.keys[key];
        if previous.material != material { return CallResult(Refused("idempotency_conflict")); }
        if previous.callRef !in session.calls { return Thrown("undefined"); }
        return CallResult(session.calls[previous.callRef]);
      }
      if selected.quote.expiresAt <= now { return CallResult(Refused("price_changed")); }
      if session.mode == Approval || session.mode == Guest || session.mode == Expired {
        return CallResult(Refused("authority_required"));
      }
      if session.mode == Unfunded { return CallResult(Refused("insufficient_balance")); }
      if session.mode == Changed { return CallResult(Refused("price_changed")); }
      var toolRef := selected.input.toolRef;
      var callRef := CallDigest(id, key, material);
      var complete := CompletedCall(callRef, toolRef, selected.input.input, now);
      session := session.(completed := session.completed[callRef := complete]);
      session := session.(calls := session.calls[callRef := complete]);
      session := session.(keys := session.keys[key := KeyRow(material, callRef)]);
      session := session.(dispatches := session.dispatches + 1);
      answer := CallResult(complete);
      if session.mode == PendingMode || session.mode == HeldPending {
        var pending := PendingCall(callRef, toolRef);
        if session.mode == HeldPending { session := session.(calls := session.calls[callRef := pending]); }
        answer := CallResult(pending);
      } else if session.mode == UncertainMode || session.mode == HeldUncertain {
        var uncertain := OutcomeUnknown(callRef, toolRef, now);
        if session.mode == HeldUncertain { session := session.(calls := session.calls[callRef := uncertain]); }
        answer := CallResult(uncertain);
      }
      sessions := sessions[id := session];
      assert session.calls == Dispatch(old(sessions)[id], id, key, selected, material, now).0.calls;
    }
  }

  // ---- invariants ----

  /** A key names the call it placed. */
  predicate KeyHolds(id: string, s: Session, k: string)
    requires k in s.keys
  {
    s.keys[k].callRef == CallDigest(id, k, s.keys[k].material) && s.keys[k].callRef in s.calls
  }

  /** A call was placed by its key, and has a completed result that it shows or holds back. */
  predicate CallHolds(id: string, s: Session, r: CallRef)
    requires r in s.calls
  {
    && r.CallDigest? && r.session == id && r.key in s.keys && s.keys[r.key].callRef == r
    && r in s.completed && s.completed[r].CompletedCall? && s.completed[r].callRef == r
    && (s.calls[r] == s.completed[r] || !s.calls[r].CompletedCall?)
  }

  ghost predicate KeysHold(id: string, s: Session) {
    forall k {:trigger KeyHolds(id, s, k)} :: k in s.keys ==> KeyHolds(id, s, k)
  }

  ghost predicate CallsHold(id: string, s: Session) {
    s.calls.Keys == s.completed.Keys && forall r {:trigger CallHolds(id, s, r)} :: r in s.calls ==> CallHolds(id, s, r)
  }

  predicate CountsHold(s: Session) { s.dispatches == |s.keys| == |s.calls| == |s.completed| }

  ghost predicate QuotesHold(s: Session) {
    forall q :: q in s.quotes ==> s.quotes[q].quote.quoteRef == q && s.quotes[q].quote.toolRef == s.quotes[q].input.toolRef
  }

  /** Keys, calls and completed results correspond one to one, and each was one dispatch. */
  ghost predicate SessionHolds(id: string, s: Session) {
    KeysHold(id, s) && CallsHold(id, s) && CountsHold(s) && QuotesHold(s)
  }

  ghost predicate Holds(m: Sessions) { forall id :: id in m ==> SessionHolds(id, m[id]) }

  /** The session after one dispatch that completed with `done` and stored `stored`. */
  predicate Placed(s: Session, after: Session, key: string, material: Material, callRef: CallRef,
                   done: Result, stored: Result)
  {
    && after.keys == s.keys[key := KeyRow(material, callRef)]
    && after.calls == s.calls[callRef := stored] && after.completed == s.completed[callRef := done]
    && after.dispatches == s.dispatches + 1
  }

  lemma PlacedKeepsRows(id: string, s: Session, after: Session, key: string, material: Material,
                        done: Result, stored: Result)
    requires KeysHold(id, s) && CallsHold(id, s) && key !in s.keys
    requires Placed(s, after, key, material, CallDigest(id, key, material), done, stored)
    requires done.CompletedCall? && done.callRef == CallDigest(id, key, material)
    requires stored == done || !stored.CompletedCall?
    ensures KeysHold(id, after) && CallsHold(id, after)
  {
    forall k | k in after.keys
      ensures KeyHolds(id, after, k)
    {
      if k != key { assert KeyHolds(id, s, k); }
    }
    forall r | r in after.calls
      ensures CallHolds(id, after, r)
    {
      if r in s.calls { assert CallHolds(id, s, r); }
    }
  }

  lemma FreshCall(id: string, s: Session, key: string, material: Material)
    requires CallsHold(id, s) && key !in s.keys
    ensures CallDigest(id, key, material) !in s.calls && CallDigest(id, key, material) !in s.completed
  {
    var callRef := CallDigest(id, key, material);
    assert callRef in s.calls ==> CallHolds(id, s, callRef);
  }

  lemma PlacedKeepsCounts(id: string, s: Session, after: Session, key: string, material: Material,
                          done: Result, stored: Result)
    requires CallsHold(id, s) && CountsHold(s) && key !in s.keys
    requires Placed(s, after, key, material, CallDigest(id, key, material), done, stored)
    ensures CountsHold(after)
  {
    var callRef := CallDigest(id, key, material);
    FreshCall(id, s, key, material);
    assert after.keys.Keys == s.keys.Keys + {key};
    assert after.calls.Keys == s.calls.Keys + {callRef};
    assert after.completed.Keys == s.completed.Keys + {callRef};
  }

  lemma DispatchHolds(id: string, s: Session, key: string, row: QuoteRow, material: Material, now: int)
    requires SessionHolds(id, s) && key !in s.keys
    ensures SessionHolds(id, Dispatch(s, id, key, row, material, now).0)
  {
    var after, callRef := Dispatch(s, id, key, row, material, now).0, CallDigest(id, key, material);
    var done, stored := after.completed[callRef], after.calls[callRef];
    PlacedKeepsRows(id, s, after, key, material, done, stored);
    PlacedKeepsCounts(id, s, after, key, material, done, stored);
  }

  /** Events and mode are not part of the invariant, and a Quote may be added. */
  lemma FrameHolds(id: string, s: Session, after: Session)
    requires SessionHolds(id, s) && QuotesHold(after)
    requires after.keys == s.keys && after.calls == s.calls
    requires after.completed == s.completed && after.dispatches == s.dispatches
    ensures SessionHolds(id, after)
  {
    forall k | k in after.keys
      ensures KeyHolds(id, after, k)
    {
      assert KeyHolds(id, s, k);
    }
    forall r | r in after.calls
      ensures CallHolds(id, after, r)
    {
      assert CallHolds(id, s, r);
    }
  }

  lemma ExecuteHolds(id: string, s: Session, action: Action, requestId: string, now: int)
    requires SessionHolds(id, s)
    ensures SessionHolds(id, ExecuteOn(s, id, action, requestId, now).0)
  {
    var recorded, after := s.(events := s.events + [action]), ExecuteOn(s, id, action, requestId, now).0;
    FrameHolds(id, s, recorded);
    if action.CallTool? && after != recorded {
      var row := recorded.quotes[action.quoteRef];
      DispatchHolds(id, recorded, action.key, row, Material(action.quoteRef, row.input), now);
    } else {
      FrameHolds(id, recorded, after);
    }
  }

  /** Completing shows every completed result. */
  lemma CompletingHolds(id: string, s: Session)
    requires SessionHolds(id, s)
    ensures SessionHolds(id, Completing(s))
  {
    var after := Completing(s);
    assert after.calls.Keys == s.calls.Keys;
    forall k | k in after.keys
      ensures KeyHolds(id, after, k)
    {
      assert KeyHolds(id, s, k);
    }
    forall r | r in after.calls
      ensures CallHolds(id, after, r)
    {
      assert CallHolds(id, s, r);
    }
  }

  lemma StepHolds(m: Sessions, op: Op)
    requires Holds(m)
    ensures Holds(Step(m, op))
  {
    if op.id in m {
      assert SessionHolds(op.id, m[op.id]);
      match op
      case Execute(id, action, requestId, now) => ExecuteHolds(id, m[id], action, requestId, now);
      case CompleteCalls(id) => CompletingHolds(id, m[id]);
      case ExpireQuotes(id, now) => FrameHolds(id, m[id], Expiring(m[id], now));
      case Resume(id) => FrameHolds(id, m[id], m[id].(mode := Active));
      case Create(_, _) =>
    }
  }

  lemma {:induction false} RunHolds(ops: seq<Op>)
    ensures Holds(Run(map[], ops))
  {
    if ops != [] {
      RunHolds(ops[..|ops| - 1]);
      StepHolds(Run(map[], ops[..|ops| - 1]), ops[|ops| - 1]);
    }
  }

  // ---- theorems ----

  /** Over any run, a session dispatched exactly once per key, per call and per completed result. */
  lemma {:induction false} OneDispatchPerKey(ops: seq<Op>, id: string)
    requires id in Run(map[], ops)
    ensures var s := Run(map[], ops)[id];
            && s.dispatches == |s.keys| == |s.calls| == |s.completed|
            && s.calls.Keys == s.completed.Keys
            && forall k :: k in s.keys ==> s.keys[k].callRef in s.calls
  {
    RunHolds(ops);
    var s := Run(map[], ops)[id];
    assert SessionHolds(id, s);
    forall k | k in s.keys
      ensures s.keys[k].callRef in s.calls
    {
      assert KeyHolds(id, s, k);
    }
  }

  /** A used key never dispatches again: equal material answers its call, other material is refused, nothing moves. */
  lemma {:induction false} UsedKey(ops: seq<Op>, id: string, ref: QuoteRef, key: string, now: int)
    requires id in Run(map[], ops) && key in Run(map[], ops)[id].keys && ref in Run(map[], ops)[id].quotes && key != ""
    ensures var s := Run(map[], ops)[id];
            var previous := s.keys[key];
            var (after, answer) := CallFor(s, id, ref, key, now);
            && after == s
            && previous.callRef in s.calls
            && answer == CallResult(if previous.material == Material(ref, s.quotes[ref].input)
                                    then s.calls[previous.callRef] else Refused("idempotency_conflict"))
  {
    RunHolds(ops);
    assert SessionHolds(id, Run(map[], ops)[id]) && KeyHolds(id, Run(map[], ops)[id], key);
  }

  /** A call dispatches exactly when its key is fresh, its Quote is known and live, and the mode grants authority. */
  lemma DispatchesIff(s: Session, id: string, ref: QuoteRef, key: string, now: int)
    ensures CallFor(s, id, ref, key, now).0.dispatches == s.dispatches + 1
            <==> && key != "" && key !in s.keys
                 && ref in s.quotes && now < s.quotes[ref].quote.expiresAt
                 && s.mode !in {Approval, Guest, Expired, Unfunded, Changed}
    ensures CallFor(s, id, ref, key, now).0 != s ==> CallFor(s, id, ref, key, now).0.dispatches == s.dispatches + 1
  {
  }

  /** Steps on one session leave every other session as it was. */
  lemma OtherSessionsUntouched(m: Sessions, op: Op, other: string)
    requires other in m && other != op.id
    ensures other in Step(m, op) && Step(m, op)[other] == m[other]
  {
  }

  /** What one step keeps of a session. */
  ghost predicate Kept(s: Session, later: Session) {
    && (forall r :: r in s.completed ==> r in later.completed && later.completed[r] == s.completed[r])
    && (forall k :: k in s.keys ==> k in later.keys && later.keys[k] == s.keys[k])
    && (forall q :: q in s.quotes ==> q in later.quotes && later.quotes[q].input == s.quotes[q].input)
    && s.dispatches <= later.dispatches
    && s.events <= later.events
  }

  lemma CallKeeps(id: string, s: Session, ref: QuoteRef, key: string, now: int)
    requires SessionHolds(id, s)
    ensures Kept(s, CallFor(s, id, ref, key, now).0)
  {
    if CallFor(s, id, ref, key, now).0 != s { FreshCall(id, s, key, Material(ref, s.quotes[ref].input)); }
  }

  lemma ExecuteKeeps(id: string, s: Session, action: Action, requestId: string, now: int)
    requires SessionHolds(id, s)
    ensures Kept(s, ExecuteOn(s, id, action, requestId, now).0)
  {
    var recorded := s.(events := s.events + [action]);
    FrameHolds(id, s, recorded);
    match action
    case CallTool(ref, key) =>
      CallKeeps(id, recorded, ref, key, now);
      assert Kept(s, recorded);
    case _ =>
  }

  lemma StepKeeps(m: Sessions, op: Op, id: string)
    requires Holds(m) && id in m
    ensures id in Step(m, op) && Kept(m[id], Step(m, op)[id])
  {
    if op.id == id {
      assert SessionHolds(id, m[id]);
      if op.Execute? { ExecuteKeeps(id, m[id], op.action, op.requestId, op.now); }
    } else {
      OtherSessionsUntouched(m, op, id);
    }
  }

  lemma KeptChains(a: Session, b: Session, c: Session)
    requires Kept(a, b) && Kept(b, c)
    ensures Kept(a, c)
  {
  }

  lemma {:induction false} KeptFrom(m: Sessions, ops: seq<Op>, id: string)
    requires Holds(m) && id in m
    ensures Holds(Run(m, ops)) && id in Run(m, ops) && Kept(m[id], Run(m, ops)[id])
  {
    if ops != [] {
      var before, last := Run(m, ops[..|ops| - 1]), ops[|ops| - 1];
      KeptFrom(m, ops[..|ops| - 1], id);
      StepHolds(before, last);
      StepKeeps(before, last, id);
      KeptChains(m[id], before[id], Step(before, last)[id]);
    }
  }

  /** A stored completed result, a used key and a Quote's input never change, whatever follows. */
  lemma {:induction false} StoredResultsNeverChange(past: seq<Op>, more: seq<Op>, id: string)
    requires id in Run(map[], past)
    ensures id in Run(Run(map[], past), more) && Kept(Run(map[], past)[id], Run(Run(map[], past), more)[id])
  {
    RunHolds(past);
    KeptFrom(Run(map[], past), more, id);
  }

  predicate LacksAuthority(mode: Mode) {
    mode == Approval || mode == Guest || mode == Expired || mode == Unfunded || mode == Changed
  }

  lemma StepGrantsNoAuthority(m: Sessions, op: Op, id: string)
    requires id in m && LacksAuthority(m[id].mode) && op != Resume(id)
    ensures id in Step(m, op) && Step(m, op)[id].mode == m[id].mode
    ensures Step(m, op)[id].dispatches == m[id].dispatches && Step(m, op)[id].completed == m[id].completed
    ensures Step(m, op)[id].calls.Keys <= m[id].calls.Keys + m[id].completed.Keys
  {
  }

  /** Only the controller grants authority: without a resume, a session that lacks it keeps its mode and never dispatches. */
  lemma {:induction false} NoAuthorityNoDispatch(m: Sessions, ops: seq<Op>, id: string)
    requires id in m && LacksAuthority(m[id].mode)
    requires forall i :: 0 <= i < |ops| ==> ops[i] != Resume(id)
    ensures id in Run(m, ops) && Run(m, ops)[id].mode == m[id].mode
    ensures Run(m, ops)[id].dispatches == m[id].dispatches && Run(m, ops)[id].completed == m[id].completed
    ensures Run(m, ops)[id].calls.Keys <= m[id].calls.Keys + m[id].completed.Keys
  {
    if ops != [] {
      var last := ops[|ops| - 1];
      NoAuthorityNoDispatch(m, ops[..|ops| - 1], id);
      StepGrantsNoAuthority(Run(m, ops[..|ops| - 1]), last, id);
    }
  }

  /** After the controller completes a session, the status of every call is its completed result. */
  lemma {:induction false} CompletedCallsAreVisible(ops: seq<Op>, id: string, r: CallRef, requestId: string, now: int)
    requires id in Run(map[], ops) && r in Run(map[], ops)[id].calls
    ensures var s := Run(map[], ops + [CompleteCalls(id)])[id];
            && r in Run(map[], ops)[id].completed
            && ExecuteOn(s, id, Status(r), requestId, now).1 == CallResult(Run(map[], ops)[id].completed[r])
  {
    RunHolds(ops);
    assert SessionHolds(id, Run(map[], ops)[id]) && CallHolds(id, Run(map[], ops)[id], r);
    assert (ops + [CompleteCalls(id)])[..|ops|] == ops;
  }
}
