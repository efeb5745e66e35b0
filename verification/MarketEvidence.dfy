/**
 Market evidence and ratings: facts recorded once per source, ratings kept once per
 reviewer, and the aggregates written beside them. An aggregate is the list of
 entries inserted into it; counts and sums must agree with the rows themselves.
 */
module MarketEvidence {
  import opened Wrappers

  datatype Kind =
    | AnswerReported | Invocation | InvocationCompleted | InvocationRefused
    | Settlement | QualifiedUse | ReconciliationRequired

  function KindText(k: Kind): string {
    match k
    case AnswerReported => "ae_answer_reported"
    case Invocation => "ae_invocation"
    case InvocationCompleted => "ae_invocation_completed"
    case InvocationRefused => "ae_invocation_refused"
    case Settlement => "ae_settlement"
    case QualifiedUse => "ae_qualified_use"
    case ReconciliationRequired => "ae_reconciliation_required"
  }

  datatype Fact = Fact(
    kind: Kind, sourceRef: string, occurredAt: int, toolRef: Option<string>,
    durationMs: Option<int>, reporterRef: Option<string>, refusalCode: Option<string>)

  datatype Rating = Rating(
    toolRef: string, reviewerRef: string, score: int, review: Option<string>, createdAt: int, updatedAt: int)

  /** One entry of an aggregate: its namespace, sort key and summed value. */
  datatype Entry = Entry(namespace: string, key: int, value: int)

  datatype Store = Store(
    facts: seq<Fact>, global: seq<Entry>, perTool: seq<Entry>, ratings: seq<Rating>, ratingEntries: seq<Entry>,
    categories: map<string, string>)

  // ---- aggregates ----

  /** Entries of a namespace at or after a key. */
  function CountSince(es: seq<Entry>, namespace: string, since: int): nat {
    if es == [] then 0
    else CountSince(es[..|es| - 1], namespace, since)
         + (if es[|es| - 1].namespace == namespace && es[|es| - 1].key >= since then 1 else 0)
  }

  function CountAll(es: seq<Entry>, namespace: string): nat {
    if es == [] then 0 else CountAll(es[..|es| - 1], namespace) + (if es[|es| - 1].namespace == namespace then 1 else 0)
  }

  function SumAll(es: seq<Entry>, namespace: string): int {
    if es == [] then 0
    else SumAll(es[..|es| - 1], namespace) + (if es[|es| - 1].namespace == namespace then es[|es| - 1].value else 0)
  }

  function EvidenceNamespace(kind: Kind, toolRef: Option<string>): string {
    KindText(kind) + ":" + (if toolRef.Some? then toolRef.value else "unscoped")
  }

  function GlobalEntry(f: Fact): Entry { Entry(KindText(f.kind), f.occurredAt, 0) }

  function ToolEntry(f: Fact): Entry { Entry(EvidenceNamespace(f.kind, f.toolRef), f.occurredAt, 0) }

  function RatingEntry(r: Rating): Entry { Entry(r.toolRef, r.createdAt, r.score) }

  // ---- texts ----

  const TOOL_REF_PREFIX := "operation:v1:"

  /** The one form of a reference that names a Tool: the prefix and 64 lower-case hexadecimal digits. */
  predicate IsPublicToolRef(s: string) {
    && |s| == 13 + 64 && s[..13] == TOOL_REF_PREFIX
    && forall i :: 13 <= i < |s| ==> '0' <= s[i] <= '9' || 'a' <= s[i] <= 'f'
  }

  predicate IsSpace(c: char) {
    || '\t' <= c <= '\r' || c == ' ' || c == '\U{A0}' || c == '\U{1680}' || '\U{2000}' <= c <= '\U{200A}'
    || c == '\U{2028}' || c == '\U{2029}' || c == '\U{202F}' || c == '\U{205F}' || c == '\U{3000}' || c == '\U{FEFF}'
  }

  function Trim(s: string): string {
    if s == "" then ""
    else if IsSpace(s[0]) then Trim(s[1..])
    else if IsSpace(s[|s| - 1]) then Trim(s[..|s| - 1])
    else s
  }

  /** `length`: a character beyond the basic plane is two UTF-16 code units. */
  function Utf16Length(s: string): nat {
    if s == "" then 0 else (if s[0] >= '\U{10000}' then 2 else 1) + Utf16Length(s[1..])
  }

  /** The requested references, trimmed, without empty ones and repetitions, in order. */
  function UniqueRefs(refs: seq<string>): seq<string> {
    if refs == [] then []
    else
      var before, ref := UniqueRefs(refs[..|refs| - 1]), Trim(refs[|refs| - 1]);
      if ref == "" || ref in before then before else before + [ref]
  }

  // ---- operations ----

  predicate Recorded(facts: seq<Fact>, kind: Kind, sourceRef: string) {
    exists i :: 0 <= i < |facts| && facts[i].kind == kind && facts[i].sourceRef == sourceRef
  }

  function Record(s: Store, f: Fact): Store {
    if Recorded(s.facts, f.kind, f.sourceRef) then s
    else s.(facts := s.facts + [f], global := s.global + [GlobalEntry(f)], perTool := s.perTool + [ToolEntry(f)])
  }

  /** Only a Provider fault names the Tool. */
  function RefusalFact(callRef: string, toolRef: string, providerFault: bool, publicCode: string, at: int): Fact {
    Fact(InvocationRefused, callRef, at, if providerFault then Some(toolRef) else None, None, None, Some(publicCode))
  }

  /** A rating request; `completed` holds the buyers and Tools of the completed Calls at that time. */
  datatype RatingRequest = RatingRequest(
    reviewer: Option<string>, toolRef: string, score: ScoreArg, completed: set<(string, string)>, review: Option<string>)
  datatype ScoreArg = WholeScore(score: int) | FractionalScore

  datatype RateAnswer = RatingRecorded | RateThrew(code: string)

  function Review(r: RatingRequest): Option<string> {
    if r.review.Some? then Some(Trim(r.review.value)) else None
  }

  function RateRefusal(r: RatingRequest): Option<string> {
    if r.reviewer.None? then Some("market_rating_authentication_required")
    else if !r.score.WholeScore? || r.score.score < 1 || r.score.score > 5 then Some("market_rating_score_invalid")
    else if !IsPublicToolRef(r.toolRef) then Some("market_rating_tool_ref_invalid")
    else if (r.reviewer.value, r.toolRef) !in r.completed then Some("market_rating_completed_call_required")
    else if Review(r).Some? && (Utf16Length(Review(r).value) == 0 || Utf16Length(Review(r).value) > 2000)
    then Some("market_rating_review_invalid")
    else None
  }

  /** The position of a reviewer's rating of a Tool, or the row count. */
  function FindRating(rs: seq<Rating>, toolRef: string, reviewer: string): (i: nat)
    ensures i <= |rs|
    ensures i < |rs| ==> rs[i].toolRef == toolRef && rs[i].reviewerRef == reviewer
    ensures forall k :: 0 <= k < i ==> rs[k].toolRef != toolRef || rs[k].reviewerRef != reviewer
  {
    if rs == [] then 0
    else if rs[0].toolRef == toolRef && rs[0].reviewerRef == reviewer then 0
    else 1 + FindRating(rs[1..], toolRef, reviewer)
  }

  /** Every rating row has its entry. */
  predicate Mirrored(s: Store) { |s.ratingEntries| == |s.ratings| }

  /** A changed score replaces the entry of the same row. */
  function Rate(s: Store, r: RatingRequest, now: int): Store
    requires Mirrored(s)
  {
    if RateRefusal(r).Some? then s
    else
      var i := FindRating(s.ratings, r.toolRef, r.reviewer.value);
      if i == |s.ratings| then
        var row := Rating(r.toolRef, r.reviewer.value, r.score.score, Review(r), now, now);
        s.(ratings := s.ratings + [row], ratingEntries := s.ratingEntries + [RatingEntry(row)])
      else
        var row := s.ratings[i].(score := r.score.score, review := Review(r), updatedAt := now);
        s.(ratings := s.ratings[i := row], ratingEntries := s.ratingEntries[i := RatingEntry(row)])
  }

  const CATEGORIES :=
    {"data-research", "finance", "identity-compliance", "commerce", "media", "developer-tools", "other"}

  /** A Tool has one category, and the last assignment wins. */
  function Assign(s: Store, toolRef: string, category: string): Store {
    if !IsPublicToolRef(toolRef) || category !in CATEGORIES then s
    else s.(categories := s.categories[toolRef := category])
  }

  // ---- reading ----

  predicate CompletedFor(f: Fact, toolRef: string, since: int) {
    f.kind == InvocationCompleted && f.toolRef == Some(toolRef) && f.occurredAt >= since
  }

  /** Puts a newer row into a descending index: before every row that is not later. */
  function IndexRow(fs: seq<Fact>, f: Fact): seq<Fact> {
    if fs == [] || fs[0].occurredAt <= f.occurredAt then [f] + fs else [fs[0]] + IndexRow(fs[1..], f)
  }

  /** The completed Calls of a Tool since a time as the index lists them, latest first. */
  function LatestFirst(facts: seq<Fact>, toolRef: string, since: int): seq<Fact> {
    if facts == [] then []
    else
      var before, f := LatestFirst(facts[..|facts| - 1], toolRef, since), facts[|facts| - 1];
      if CompletedFor(f, toolRef, since) then IndexRow(before, f) else before
  }

  const MAX_LATENCY_SAMPLES: nat := 48

  /** The durations of the sampled rows that have one. */
  function Durations(fs: seq<Fact>): seq<int> {
    if fs == [] then [] else (if fs[0].durationMs.Some? then [fs[0].durationMs.value] else []) + Durations(fs[1..])
  }

  function Sampled(fs: seq<Fact>): seq<Fact> {
    if |fs| <= MAX_LATENCY_SAMPLES then fs else fs[..MAX_LATENCY_SAMPLES]
  }

  /** What a listing shows for one Tool. */
  datatype Listing = Listing(
    toolRef: string, category: Option<string>, ratingCount: nat, ratingSum: int, completedCalls: nat, qualifiedUses: nat,
    latencies: seq<int>)
  datatype ReadAnswer = Listings(rows: seq<Listing>) | ReadThrew(code: string)

  function ReadTool(s: Store, toolRef: string, since: int): Listing {
    Listing(toolRef, if toolRef in s.categories then Some(s.categories[toolRef]) else None,
            CountAll(s.ratingEntries, toolRef), SumAll(s.ratingEntries, toolRef),
            CountSince(s.perTool, EvidenceNamespace(InvocationCompleted, Some(toolRef)), since),
            CountSince(s.perTool, EvidenceNamespace(QualifiedUse, Some(toolRef)), since),
            Durations(Sampled(LatestFirst(s.facts, toolRef, since))))
  }

  function Read(s: Store, refs: seq<string>, since: int): ReadAnswer {
    var unique := UniqueRefs(refs);
    if exists i :: 0 <= i < |unique| && !IsPublicToolRef(unique[i])
    then ReadThrew("market_listing_evidence_tool_ref_invalid")
    else if |unique| > 20 then ReadThrew("market_listing_evidence_tool_limit_exceeded")
    else Listings(seq(|unique|, i requires 0 <= i < |unique| => ReadTool(s, unique[i], since)))
  }

  // ---- the tables ----

  class EvidenceTables {
    var facts: seq<Fact>
    var global: seq<Entry>
    var perTool: seq<Entry>
    var ratings: seq<Rating>
    var ratingEntries: seq<Entry>
    var categories: map<string, string>

    constructor ()
      ensures Current() == EMPTY
    {
      facts, global, perTool, ratings, ratingEntries, categories := [], [], [], [], [], map[];
    }

    function Current(): Store
      reads this
    {
      Store(facts, global, perTool, ratings, ratingEntries, categories)
    }

    method RecordFact(f: Fact)
      modifies this
      ensures Current() == Record(old(Current()), f)
    {
      if Recorded(facts, f.kind, f.sourceRef) { return; }
      facts := facts + [f];
      global := global + [GlobalEntry(f)];
      InsertToolEvidence(f);
    }

    method InsertToolEvidence(f: Fact)
      modifies this`perTool
      ensures perTool == old(perTool) + [ToolEntry(f)]
    {
      perTool := perTool + [ToolEntry(f)];
    }

    method RecordInvocationRefused(callRef: string, toolRef: string, providerFault: bool, publicCode: string, at: int)
      modifies this
      ensures Current() == Record(old(Current()), RefusalFact(callRef, toolRef, providerFault, publicCode, at))
    {
      var named := if providerFault then Some(toolRef) else None;
      RecordFact(Fact(InvocationRefused, callRef, at, named, None, None, Some(publicCode)));
    }

    method AssignCategory(toolRef: string, category: string) returns (recorded: bool)
      modifies this`categories
      ensures Current() == Assign(old(Current()), toolRef, category)
      ensures recorded <==> IsPublicToolRef(toolRef) && category in CATEGORIES
    {
      if !IsPublicToolRef(toolRef) || category !in CATEGORIES { return false; }
      categories := categories[toolRef := category];
      recorded := true;
    }

    method RateTool(r: RatingRequest, now: int) returns (answer: RateAnswer)
      requires Mirrored(Current())
      modifies this
      ensures Current() == Rate(old(Current()), r, now)
      ensures answer == match RateRefusal(r) case Some(code) => RateThrew(code) case None => RatingRecorded
    {
      if r.reviewer.None? { return RateThrew("market_rating_authentication_required"); }
      if !r.score.WholeScore? || r.score.score < 1 || r.score.score > 5 { return RateThrew("market_rating_score_invalid"); }
      if !IsPublicToolRef(r.toolRef) { return RateThrew("market_rating_tool_ref_invalid"); }
      if (r.reviewer.value, r.toolRef) !in r.completed { return RateThrew("market_rating_completed_call_required"); }
      var review := if r.review.Some? then Some(Trim(r.review.value)) else None;
      if review.Some? && (Utf16Length(review.value) == 0 || Utf16Length(review.value) > 2000) {
        return RateThrew("market_rating_review_invalid");
      }
      var i := FindRating(ratings, r.toolRef, r.reviewer.value);
      if i == |ratings| {
        var row := Rating(r.toolRef, r.reviewer.value, r.score.score, review, now, now);
        ratings := ratings + [row];
        ratingEntries := ratingEntries + [RatingEntry(row)];
      } else {
        var row := ratings[i].(score := r.score.score, review := review, updatedAt := now);
        ratings := ratings[i := row];
        ratingEntries := ratingEntries[i := RatingEntry(row)];
      }
      answer := RatingRecorded;
    }
  }

  // ---- runs ----

  datatype Op =
    | RecordOp(fact: Fact)
    | RefuseOp(callRef: string, toolRef: string, providerFault: bool, publicCode: string, at: int)
    | RateOp(request: RatingRequest, now: int)
    | AssignOp(toolRef: string, category: string)

  const EMPTY := Store([], [], [], [], [], map[])

  function Step(s: Store, op: Op): (after: Store)
    requires Mirrored(s)
    ensures Mirrored(after)
  {
    match op
    case RecordOp(f) => Record(s, f)
    case RefuseOp(callRef, toolRef, fault, code, at) => Record(s, RefusalFact(callRef, toolRef, fault, code, at))
    case RateOp(r, now) => Rate(s, r, now)
    case AssignOp(toolRef, category) => Assign(s, toolRef, category)
  }

  function Run(s: Store, ops: seq<Op>): (after: Store)
    requires Mirrored(s)
    ensures Mirrored(after)
  {
    if ops == [] then s else Step(Run(s, ops[..|ops| - 1]), ops[|ops| - 1])
  }

  /** The aggregates mirror the rows, facts are distinct by source, and ratings by reviewer. */
  ghost predicate Holds(s: Store) {
    && |s.global| == |s.perTool| == |s.facts| && Mirrored(s)
    && (forall i :: 0 <= i < |s.facts| ==>
          s.global[i] == GlobalEntry(s.facts[i]) && s.perTool[i] == ToolEntry(s.facts[i]))
    && (forall i :: 0 <= i < |s.ratings| ==>
          s.ratingEntries[i] == RatingEntry(s.ratings[i]) && 1 <= s.ratings[i].score <= 5)
    && (forall i, j :: 0 <= i < j < |s.facts| ==>
          s.facts[i].kind != s.facts[j].kind || s.facts[i].sourceRef != s.facts[j].sourceRef)
    && (forall i, j :: 0 <= i < j < |s.ratings| ==>
          s.ratings[i].toolRef != s.ratings[j].toolRef || s.ratings[i].reviewerRef != s.ratings[j].reviewerRef)
  }

  /** A stored review was trimmed, says something and fits. */
  predicate ReviewHolds(r: Rating) {
    r.review.Some? ==>
      var t := r.review.value;
      t != "" && Utf16Length(t) <= 2000 && !IsSpace(t[0]) && !IsSpace(t[|t| - 1])
  }

  lemma RecordHolds(s: Store, f: Fact)
    requires Holds(s)
    ensures Holds(Record(s, f))
  {
  }

  lemma RateHolds(s: Store, r: RatingRequest, now: int)
    requires Holds(s)
    ensures Holds(Rate(s, r, now))
  {
  }

  lemma {:induction false} RunHolds(ops: seq<Op>)
    ensures Holds(Run(EMPTY, ops))
  {
    if ops != [] {
      var before := Run(EMPTY, ops[..|ops| - 1]);
      RunHolds(ops[..|ops| - 1]);
      match ops[|ops| - 1]
      case RecordOp(f) => RecordHolds(before, f);
      case RefuseOp(callRef, toolRef, fault, code, at) =>
        RecordHolds(before, RefusalFact(callRef, toolRef, fault, code, at));
      case RateOp(r, now) => RateHolds(before, r, now);
      case AssignOp(_, _) =>
    }
  }

  // ---- specifications by filtering rows ----

  function FactsOfKind(facts: seq<Fact>, kind: Kind, since: int): nat {
    if facts == [] then 0
    else FactsOfKind(facts[..|facts| - 1], kind, since)
         + (if facts[|facts| - 1].kind == kind && facts[|facts| - 1].occurredAt >= since then 1 else 0)
  }

  /** Facts of one kind that name exactly this Tool, or name none. */
  function FactsFor(facts: seq<Fact>, kind: Kind, toolRef: Option<string>, since: int): nat {
    if facts == [] then 0
    else
      var f := facts[|facts| - 1];
      FactsFor(facts[..|facts| - 1], kind, toolRef, since)
      + (if f.kind == kind && f.toolRef == toolRef && f.occurredAt >= since then 1 else 0)
  }

  function RatingsOf(rs: seq<Rating>, toolRef: string): nat {
    if rs == [] then 0 else RatingsOf(rs[..|rs| - 1], toolRef) + (if rs[|rs| - 1].toolRef == toolRef then 1 else 0)
  }

  function ScoresOf(rs: seq<Rating>, toolRef: string): int {
    if rs == [] then 0
    else ScoresOf(rs[..|rs| - 1], toolRef) + (if rs[|rs| - 1].toolRef == toolRef then rs[|rs| - 1].score else 0)
  }

  // ---- namespaces ----

  lemma KindTextInjective(a: Kind, b: Kind)
    ensures KindText(a) == KindText(b) <==> a == b
  {
    if a != b { assert |KindText(a)| != |KindText(b)| || KindText(a)[3] != KindText(b)[3]; }
  }

  lemma KindTextHasNoColon(k: Kind)
    ensures ':' !in KindText(k)
  {
  }

  function FirstColon(s: string): nat {
    if s == "" || s[0] == ':' then 0 else 1 + FirstColon(s[1..])
  }

  lemma {:induction false} FirstColonAfter(a: string, x: string)
    requires ':' !in a
    ensures FirstColon(a + ":" + x) == |a|
  {
    if a != "" {
      FirstColonAfter(a[1..], x);
      assert (a + ":" + x)[1..] == a[1..] + ":" + x;
    }
  }

  /** The text before the first colon, and the text after it, are decided by the whole. */
  lemma SplitAtColon(a: string, x: string, b: string, y: string)
    requires ':' !in a && ':' !in b && a + ":" + x == b + ":" + y
    ensures a == b && x == y
  {
    var s := a + ":" + x;
    FirstColonAfter(a, x);
    FirstColonAfter(b, y);
    assert a == s[..|a|] && b == s[..|b|];
    assert x == s[|a| + 1..] && y == s[|b| + 1..];
  }

  /** What an evidence namespace may name: nothing, or a public Tool. */
  predicate Nameable(toolRef: Option<string>) { toolRef.Some? ==> IsPublicToolRef(toolRef.value) }

  /** Two namespaces are equal exactly for the same kind and Tool. */
  lemma NamespaceInjective(k1: Kind, t1: Option<string>, k2: Kind, t2: Option<string>)
    requires Nameable(t1) && Nameable(t2)
    ensures EvidenceNamespace(k1, t1) == EvidenceNamespace(k2, t2) <==> k1 == k2 && t1 == t2
  {
    if EvidenceNamespace(k1, t1) == EvidenceNamespace(k2, t2) { NamespaceDecides(k1, t1, k2, t2); }
  }

  /** Equal namespaces have equal kinds, and equal texts for the Tool or its absence. */
  lemma NamespaceDecides(k1: Kind, t1: Option<string>, k2: Kind, t2: Option<string>)
    requires EvidenceNamespace(k1, t1) == EvidenceNamespace(k2, t2)
    ensures k1 == k2
    ensures (if t1.Some? then t1.value else "unscoped") == (if t2.Some? then t2.value else "unscoped")
  {
    KindTextHasNoColon(k1);
    KindTextHasNoColon(k2);
    SplitAtColon(KindText(k1), if t1.Some? then t1.value else "unscoped",
                 KindText(k2), if t2.Some? then t2.value else "unscoped");
    KindTextInjective(k1, k2);
  }

  // ---- theorems ----

  predicate SameSource(f: Fact, g: Fact) { f.kind == g.kind && f.sourceRef == g.sourceRef }

  predicate SameReviewer(r: Rating, q: Rating) { r.toolRef == q.toolRef && r.reviewerRef == q.reviewerRef }

  /** Over any run, each kind and source has at most one fact, and each Tool and reviewer at most one rating. */
  lemma {:induction false} OneRowPerSource(ops: seq<Op>, i: nat, j: nat)
    ensures var s := Run(EMPTY, ops);
            && (i < |s.facts| && j < |s.facts| && SameSource(s.facts[i], s.facts[j]) ==> i == j)
            && (i < |s.ratings| && j < |s.ratings| && SameReviewer(s.ratings[i], s.ratings[j]) ==> i == j)
  {
    RunHolds(ops);
  }

  lemma {:induction false} GlobalCounts(facts: seq<Fact>, es: seq<Entry>, kind: Kind, since: int)
    requires |es| == |facts| && forall i :: 0 <= i < |facts| ==> es[i] == GlobalEntry(facts[i])
    ensures CountSince(es, KindText(kind), since) == FactsOfKind(facts, kind, since)
  {
    if facts != [] {
      GlobalCounts(facts[..|facts| - 1], es[..|es| - 1], kind, since);
      KindTextInjective(facts[|facts| - 1].kind, kind);
    }
  }

  /** The global count since any time is the number of facts of that kind since then. */
  lemma {:induction false} GlobalCountIsFilter(ops: seq<Op>, kind: Kind, since: int)
    ensures CountSince(Run(EMPTY, ops).global, KindText(kind), since) == FactsOfKind(Run(EMPTY, ops).facts, kind, since)
  {
    RunHolds(ops);
    GlobalCounts(Run(EMPTY, ops).facts, Run(EMPTY, ops).global, kind, since);
  }

  /** A fact is counted for a public Tool exactly when it names it, whatever Tools the other facts name. */
  lemma ToolEntryCounts(f: Fact, kind: Kind, toolRef: string)
    requires IsPublicToolRef(toolRef)
    ensures ToolEntry(f).namespace == EvidenceNamespace(kind, Some(toolRef))
            <==> f.kind == kind && f.toolRef == Some(toolRef)
  {
    if ToolEntry(f).namespace == EvidenceNamespace(kind, Some(toolRef)) {
      NamespaceDecides(f.kind, f.toolRef, kind, Some(toolRef));
    }
  }

  lemma {:induction false} ToolCounts(facts: seq<Fact>, es: seq<Entry>, kind: Kind, toolRef: string, since: int)
    requires IsPublicToolRef(toolRef)
    requires |es| == |facts| && forall i :: 0 <= i < |facts| ==> es[i] == ToolEntry(facts[i])
    ensures CountSince(es, EvidenceNamespace(kind, Some(toolRef)), since) == FactsFor(facts, kind, Some(toolRef), since)
  {
    if facts != [] {
      ToolCounts(facts[..|facts| - 1], es[..|es| - 1], kind, toolRef, since);
      ToolEntryCounts(facts[|facts| - 1], kind, toolRef);
    }
  }

  /** The per-Tool count since any time is the number of facts that name the Tool since then. */
  lemma {:induction false} ToolCountIsFilter(ops: seq<Op>, kind: Kind, toolRef: string, since: int)
    requires IsPublicToolRef(toolRef)
    ensures var s := Run(EMPTY, ops);
            CountSince(s.perTool, EvidenceNamespace(kind, Some(toolRef)), since)
            == FactsFor(s.facts, kind, Some(toolRef), since)
  {
    RunHolds(ops);
    ToolCounts(Run(EMPTY, ops).facts, Run(EMPTY, ops).perTool, kind, toolRef, since);
  }

  /** A refusal that is not a Provider fault changes no count of any Tool. */
  lemma {:induction false} OwnFaultsNameNoTool(ops: seq<Op>, callRef: string, refusedTool: string, code: string, at: int,
                            kind: Kind, toolRef: string, since: int)
    requires IsPublicToolRef(toolRef)
    ensures CountSince(Run(EMPTY, ops + [RefuseOp(callRef, refusedTool, false, code, at)]).perTool,
                       EvidenceNamespace(kind, Some(toolRef)), since)
            == CountSince(Run(EMPTY, ops).perTool, EvidenceNamespace(kind, Some(toolRef)), since)
  {
    var op := RefuseOp(callRef, refusedTool, false, code, at);
    var before, after := Run(EMPTY, ops), Run(EMPTY, ops + [op]);
    assert (ops + [op])[..|ops|] == ops;
    ToolCountIsFilter(ops, kind, toolRef, since);
    ToolCountIsFilter(ops + [op], kind, toolRef, since);
    if after.facts != before.facts { assert after.facts[..|before.facts|] == before.facts; }
  }

  lemma {:induction false} TrimIsTrimmed(s: string)
    ensures var t := Trim(s); t != "" ==> !IsSpace(t[0]) && !IsSpace(t[|t| - 1])
    decreases |s|
  {
    if s != "" {
      if IsSpace(s[0]) { TrimIsTrimmed(s[1..]); }
      else if IsSpace(s[|s| - 1]) { TrimIsTrimmed(s[..|s| - 1]); }
    }
  }

  predicate Requested(refs: seq<string>, ref: string) {
    ref != "" && exists k :: 0 <= k < |refs| && Trim(refs[k]) == ref
  }

  lemma RequestedByStep(refs: seq<string>, ref: string)
    requires refs != []
    ensures Requested(refs, ref)
            <==> Requested(refs[..|refs| - 1], ref) || (ref != "" && ref == Trim(refs[|refs| - 1]))
  {
    var before := refs[..|refs| - 1];
    if Requested(before, ref) {
      var k :| 0 <= k < |before| && Trim(before[k]) == ref;
      assert Trim(refs[k]) == ref;
    }
    if k :| 0 <= k < |before| && Trim(refs[k]) == ref { assert Trim(before[k]) == ref; }
  }

  /** The unique references are the requested ones, each once. */
  lemma {:induction false} UniqueRefsAre(refs: seq<string>)
    ensures forall ref: string :: ref in UniqueRefs(refs) <==> Requested(refs, ref)
    ensures forall i, j :: 0 <= i < j < |UniqueRefs(refs)| ==> UniqueRefs(refs)[i] != UniqueRefs(refs)[j]
  {
    if refs != [] {
      var before := refs[..|refs| - 1];
      UniqueRefsAre(before);
      forall ref: string
        ensures ref in UniqueRefs(refs) <==> Requested(refs, ref)
      {
        RequestedByStep(refs, ref);
        assert ref in UniqueRefs(before) <==> Requested(before, ref);
      }
    }
  }

  lemma {:induction false} RatingCounts(rs: seq<Rating>, es: seq<Entry>, toolRef: string)
    requires |es| == |rs| && forall i :: 0 <= i < |rs| ==> es[i] == RatingEntry(rs[i]) && 1 <= rs[i].score <= 5
    ensures CountAll(es, toolRef) == RatingsOf(rs, toolRef) && SumAll(es, toolRef) == ScoresOf(rs, toolRef)
    ensures RatingsOf(rs, toolRef) <= ScoresOf(rs, toolRef) <= 5 * RatingsOf(rs, toolRef)
  {
    if rs != [] { RatingCounts(rs[..|rs| - 1], es[..|es| - 1], toolRef); }
  }

  /** A Tool's rating count and sum are those of its one-per-reviewer rows, with the sum between count and five times it. */
  lemma {:induction false} RatingAggregatesAgree(ops: seq<Op>, toolRef: string)
    ensures var s := Run(EMPTY, ops);
            && CountAll(s.ratingEntries, toolRef) == RatingsOf(s.ratings, toolRef)
            && SumAll(s.ratingEntries, toolRef) == ScoresOf(s.ratings, toolRef)
            && RatingsOf(s.ratings, toolRef) <= ScoresOf(s.ratings, toolRef) <= 5 * RatingsOf(s.ratings, toolRef)
  {
    RunHolds(ops);
    RatingCounts(Run(EMPTY, ops).ratings, Run(EMPTY, ops).ratingEntries, toolRef);
  }

  /** A Tool's listing is what filtering the rows gives. */
  lemma {:induction false} ReadToolIsFilter(ops: seq<Op>, toolRef: string, since: int)
    requires IsPublicToolRef(toolRef)
    ensures var s, row := Run(EMPTY, ops), ReadTool(Run(EMPTY, ops), toolRef, since);
            && row.ratingCount == RatingsOf(s.ratings, toolRef) && row.ratingSum == ScoresOf(s.ratings, toolRef)
            && row.completedCalls == FactsFor(s.facts, InvocationCompleted, Some(toolRef), since)
            && row.qualifiedUses == FactsFor(s.facts, QualifiedUse, Some(toolRef), since)
  {
    RatingAggregatesAgree(ops, toolRef);
    ToolCountIsFilter(ops, InvocationCompleted, toolRef, since);
    ToolCountIsFilter(ops, QualifiedUse, toolRef, since);
  }

  predicate Descending(fs: seq<Fact>) {
    forall i, j :: 0 <= i < j < |fs| ==> fs[i].occurredAt >= fs[j].occurredAt
  }

  lemma {:induction false} IndexRowKeepsOrder(fs: seq<Fact>, f: Fact)
    requires Descending(fs)
    ensures var all := IndexRow(fs, f);
            && Descending(all) && |all| == |fs| + 1
            && all[0] == if fs == [] || fs[0].occurredAt <= f.occurredAt then f else fs[0]
  {
    if fs != [] && fs[0].occurredAt > f.occurredAt { IndexRowKeepsOrder(fs[1..], f); }
  }

  lemma {:induction false} IndexRowAdds(fs: seq<Fact>, f: Fact)
    ensures multiset(IndexRow(fs, f)) == multiset(fs) + multiset{f}
  {
    if fs != [] && fs[0].occurredAt > f.occurredAt {
      IndexRowAdds(fs[1..], f);
      assert fs == [fs[0]] + fs[1..];
    }
  }

  /** The facts of the completed Calls of a Tool since a time, in the order they were recorded. */
  function CompletedOf(facts: seq<Fact>, toolRef: string, since: int): seq<Fact> {
    if facts == [] then []
    else CompletedOf(facts[..|facts| - 1], toolRef, since)
         + (if CompletedFor(facts[|facts| - 1], toolRef, since) then [facts[|facts| - 1]] else [])
  }

  lemma {:induction false} LatestFirstIsSorted(facts: seq<Fact>, toolRef: string, since: int)
    ensures var all := LatestFirst(facts, toolRef, since);
            && multiset(all) == multiset(CompletedOf(facts, toolRef, since))
            && Descending(all) && |all| == FactsFor(facts, InvocationCompleted, Some(toolRef), since)
  {
    if facts != [] {
      var before, f := facts[..|facts| - 1], facts[|facts| - 1];
      LatestFirstIsSorted(before, toolRef, since);
      if CompletedFor(f, toolRef, since) {
        IndexRowKeepsOrder(LatestFirst(before, toolRef, since), f);
        IndexRowAdds(LatestFirst(before, toolRef, since), f);
      }
    }
  }

  /**
   Over any run, latencies are sampled from exactly the completed Calls that the listing
   counts: all of them up to forty-eight, and otherwise forty-eight than which none is later.
   */
  lemma {:induction false} SamplesAreLatest(ops: seq<Op>, toolRef: string, since: int)
    requires IsPublicToolRef(toolRef)
    ensures var s, row := Run(EMPTY, ops), ReadTool(Run(EMPTY, ops), toolRef, since);
            var all := LatestFirst(s.facts, toolRef, since);
            && multiset(all) == multiset(CompletedOf(s.facts, toolRef, since)) && |all| == row.completedCalls
            && row.latencies == Durations(Sampled(all))
            && |Sampled(all)| == (if row.completedCalls <= 48 then row.completedCalls else 48)
            && forall i, j :: 0 <= i < |Sampled(all)| <= j < |all| ==> all[j].occurredAt <= Sampled(all)[i].occurredAt
  {
    ReadToolIsFilter(ops, toolRef, since);
    LatestFirstIsSorted(Run(EMPTY, ops).facts, toolRef, since);
  }

  /** A read throws exactly when a requested reference is not public, or more than twenty are left. */
  lemma ReadThrowsIff(s: Store, refs: seq<string>, since: int)
    ensures Read(s, refs, since).ReadThrew?
            <==> (|UniqueRefs(refs)| > 20 || exists ref: string :: Requested(refs, ref) && !IsPublicToolRef(ref))
  {
    UniqueRefsAre(refs);
    var unique := UniqueRefs(refs);
    if ref: string :| Requested(refs, ref) && !IsPublicToolRef(ref) { assert ref in unique; }
    if i :| 0 <= i < |unique| && !IsPublicToolRef(unique[i]) { assert unique[i] in unique; }
  }

  /** After any run, a read that answers lists exactly the requested Tools, each once, as filtering the rows gives. */
  lemma {:induction false} ReadIsFilter(ops: seq<Op>, refs: seq<string>, since: int)
    requires Read(Run(EMPTY, ops), refs, since).Listings?
    ensures var s, rows := Run(EMPTY, ops), Read(Run(EMPTY, ops), refs, since).rows;
            && (forall ref: string :: Requested(refs, ref) <==> exists i :: 0 <= i < |rows| && rows[i].toolRef == ref)
            && (forall i, j :: 0 <= i < j < |rows| ==> rows[i].toolRef != rows[j].toolRef)
            && (forall i :: 0 <= i < |rows| ==>
                  && rows[i].category == (if rows[i].toolRef in s.categories then Some(s.categories[rows[i].toolRef]) else None)
                  && rows[i].latencies == Durations(Sampled(LatestFirst(s.facts, rows[i].toolRef, since)))
                  && rows[i].ratingCount == RatingsOf(s.ratings, rows[i].toolRef)
                  && rows[i].ratingSum == ScoresOf(s.ratings, rows[i].toolRef)
                  && rows[i].completedCalls == FactsFor(s.facts, InvocationCompleted, Some(rows[i].toolRef), since)
                  && rows[i].qualifiedUses == FactsFor(s.facts, QualifiedUse, Some(rows[i].toolRef), since))
  {
    UniqueRefsAre(refs);
    var s, unique := Run(EMPTY, ops), UniqueRefs(refs);
    var rows := Read(s, refs, since).rows;
    assert |rows| == |unique| && forall i :: 0 <= i < |unique| ==> rows[i].toolRef == unique[i];
    forall i | 0 <= i < |rows|
      ensures rows[i] == ReadTool(s, unique[i], since)
      ensures rows[i].ratingCount == RatingsOf(s.ratings, unique[i]) && rows[i].ratingSum == ScoresOf(s.ratings, unique[i])
      ensures rows[i].completedCalls == FactsFor(s.facts, InvocationCompleted, Some(unique[i]), since)
      ensures rows[i].qualifiedUses == FactsFor(s.facts, QualifiedUse, Some(unique[i]), since)
    {
      ReadToolIsFilter(ops, unique[i], since);
    }
    forall ref: string
      ensures Requested(refs, ref) <==> exists i :: 0 <= i < |rows| && rows[i].toolRef == ref
    {
      assert ref in unique <==> exists i :: 0 <= i < |unique| && unique[i] == ref;
    }
  }

  lemma RateKeepsReviews(s: Store, r: RatingRequest, now: int)
    requires Mirrored(s) && forall i :: 0 <= i < |s.ratings| ==> ReviewHolds(s.ratings[i])
    ensures forall i :: 0 <= i < |Rate(s, r, now).ratings| ==> ReviewHolds(Rate(s, r, now).ratings[i])
  {
    if RateRefusal(r).None? && r.review.Some? { TrimIsTrimmed(r.review.value); }
  }

  /** Over any run every stored review is trimmed, not empty, and at most 2,000 UTF-16 code units long. */
  lemma {:induction false} ReviewsAreTrimmed(ops: seq<Op>)
    ensures forall i :: 0 <= i < |Run(EMPTY, ops).ratings| ==> ReviewHolds(Run(EMPTY, ops).ratings[i])
  {
    if ops != [] {
      ReviewsAreTrimmed(ops[..|ops| - 1]);
      var last := ops[|ops| - 1];
      if last.RateOp? { RateKeepsReviews(Run(EMPTY, ops[..|ops| - 1]), last.request, last.now); }
    }
  }

  /** Over any run every category is a known one of a public Tool. */
  lemma {:induction false} CategoriesAreKnown(ops: seq<Op>, toolRef: string)
    ensures var s := Run(EMPTY, ops);
            toolRef in s.categories ==> s.categories[toolRef] in CATEGORIES && IsPublicToolRef(toolRef)
  {
    if ops != [] { CategoriesAreKnown(ops[..|ops| - 1], toolRef); }
  }

  /** Rating again replaces the reviewer's score: the sum moves by the difference, the count not at all. */
  lemma {:induction false} RatingAgainMovesTheSum(ops: seq<Op>, r: RatingRequest, now: int)
    requires RateRefusal(r).None?
    ensures var s := Run(EMPTY, ops);
            && var after := Rate(s, r, now);
            && var i := FindRating(s.ratings, r.toolRef, r.reviewer.value);
            && RatingsOf(after.ratings, r.toolRef) == RatingsOf(s.ratings, r.toolRef) + (if i == |s.ratings| then 1 else 0)
            && ScoresOf(after.ratings, r.toolRef)
               == ScoresOf(s.ratings, r.toolRef) + r.score.score - (if i == |s.ratings| then 0 else s.ratings[i].score)
  {
    RunHolds(ops);
    var s := Run(EMPTY, ops);
    var after := Rate(s, r, now);
    var i := FindRating(s.ratings, r.toolRef, r.reviewer.value);
    if i == |s.ratings| { assert after.ratings[..|s.ratings|] == s.ratings; }
    else { ReplaceScores(s.ratings, i, after.ratings[i]); }
  }

  lemma {:induction false} ReplaceScores(rs: seq<Rating>, i: nat, row: Rating)
    requires i < |rs| && row.toolRef == rs[i].toolRef
    ensures RatingsOf(rs[i := row], row.toolRef) == RatingsOf(rs, row.toolRef)
    ensures ScoresOf(rs[i := row], row.toolRef) == ScoresOf(rs, row.toolRef) + row.score - rs[i].score
  {
    if i < |rs| - 1 {
      ReplaceScores(rs[..|rs| - 1], i, row);
      assert rs[i := row][..|rs| - 1] == rs[..|rs| - 1][i := row];
    } else {
      assert rs[i := row][..|rs| - 1] == rs[..|rs| - 1];
    }
  }
}
