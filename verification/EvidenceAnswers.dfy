/** What evidence, ratings and categories keep of the requests of a run, and the texts they admit, character by character. */
module EvidenceAnswers {
  import opened Wrappers
  import opened MarketEvidence

  // ---- texts ----

  const LOWER_HEX := "0123456789abcdef"

  /** A public reference is the prefix and sixty-four lower-case hexadecimal digits. */
  lemma PublicToolRefIff(s: string)
    ensures IsPublicToolRef(s)
            <==> |s| == 77 && s[..13] == "operation:v1:" && forall k :: 13 <= k < 77 ==> s[k] in LOWER_HEX
  {
    forall c: char
      ensures c in LOWER_HEX <==> '0' <= c <= '9' || 'a' <= c <= 'f'
    {
      LowerHexDigitIff(c);
    }
  }

  lemma LowerHexDigitIff(c: char)
    ensures c in LOWER_HEX <==> '0' <= c <= '9' || 'a' <= c <= 'f'
  {
    var d := LOWER_HEX;
    assert d[0] == '0' && d[1] == '1' && d[2] == '2' && d[3] == '3' && d[4] == '4' && d[5] == '5' && d[6] == '6' && d[7] == '7';
    assert d[8] == '8' && d[9] == '9' && d[10] == 'a' && d[11] == 'b' && d[12] == 'c' && d[13] == 'd' && d[14] == 'e' && d[15] == 'f';
  }

  /** The white space and line terminators that trimming removes, by code point. */
  lemma SpacesAre(c: char)
    ensures IsSpace(c) <==> c as int in {0x9, 0xA, 0xB, 0xC, 0xD, 0x20, 0xA0, 0x1680, 0x2000, 0x2001, 0x2002, 0x2003, 0x2004, 0x2005,
                                         0x2006, 0x2007, 0x2008, 0x2009, 0x200A, 0x2028, 0x2029, 0x202F, 0x205F, 0x3000, 0xFEFF}
  {
  }

  predicate AllSpace(s: string) { forall i :: 0 <= i < |s| ==> IsSpace(s[i]) }

  /** Trimming takes white space from both ends; `TrimIsTrimmed` says that it takes all of it. */
  lemma {:induction false} TrimTakesSpace(s: string) returns (left: string, right: string)
    ensures AllSpace(left) && AllSpace(right) && s == left + Trim(s) + right
    decreases |s|
  {
    left, right := "", "";
    if s != "" && IsSpace(s[0]) {
      var l, r := TrimTakesSpace(s[1..]);
      assert s == [s[0]] + (l + Trim(s) + r) == ([s[0]] + l) + Trim(s) + r;
      left, right := [s[0]] + l, r;
    } else if s != "" && IsSpace(s[|s| - 1]) {
      var l, r := TrimTakesSpace(s[..|s| - 1]);
      assert s == (l + Trim(s) + r) + [s[|s| - 1]] == l + Trim(s) + (r + [s[|s| - 1]]);
      left, right := l, r + [s[|s| - 1]];
    }
  }

  /** The code units that UTF-16 writes for one character: itself, or a surrogate pair. */
  function Units(c: char): seq<int> {
    if c as int < 0x1_0000 then [c as int]
    else [0xD800 + (c as int - 0x1_0000) / 0x400, 0xDC00 + (c as int - 0x1_0000) % 0x400]
  }

  function Utf16(s: string): seq<int> { if s == "" then [] else Units(s[0]) + Utf16(s[1..]) }

  /** The measured length is the number of code units. */
  lemma {:induction false} Utf16LengthIs(s: string)
    ensures Utf16Length(s) == |Utf16(s)|
  {
    if s != "" { Utf16LengthIs(s[1..]); }
  }

  // ---- what one request is answered and writes ----

  /** Each refusal of a rating, with exactly the case it stands for, in the order they are looked for. */
  lemma RateAnswersIff(r: RatingRequest)
    ensures var answer := RateRefusal(r);
            var known := r.reviewer.Some?;
            var scored := known && r.score.WholeScore? && r.score.score in {1, 2, 3, 4, 5};
            var named := scored && IsPublicToolRef(r.toolRef);
            var bought := named && (r.reviewer.value, r.toolRef) in r.completed;
            var fits := r.review.Some? ==> 0 < |Utf16(Trim(r.review.value))| <= 2000;
            && (answer == Some("market_rating_authentication_required") <==> !known)
            && (answer == Some("market_rating_score_invalid") <==> known && !scored)
            && (answer == Some("market_rating_tool_ref_invalid") <==> scored && !named)
            && (answer == Some("market_rating_completed_call_required") <==> named && !bought)
            && (answer == Some("market_rating_review_invalid") <==> bought && !fits)
            && (answer == None <==> bought && fits)
  {
    if r.review.Some? { Utf16LengthIs(Trim(r.review.value)); }
  }

  /** What the answer of a read says, in the order the checks are made. */
  lemma ReadAnswersIff(s: Store, refs: seq<string>, since: int)
    ensures var answer, bad := Read(s, refs, since), exists ref: string :: Requested(refs, ref) && !IsPublicToolRef(ref);
            && (answer == ReadThrew("market_listing_evidence_tool_ref_invalid") <==> bad)
            && (answer == ReadThrew("market_listing_evidence_tool_limit_exceeded") <==> !bad && |UniqueRefs(refs)| > 20)
  {
    UniqueRefsAre(refs);
    var unique := UniqueRefs(refs);
    if ref: string :| Requested(refs, ref) && !IsPublicToolRef(ref) { assert ref in unique; }
    if i :| 0 <= i < |unique| && !IsPublicToolRef(unique[i]) { assert unique[i] in unique; }
  }

  // ---- facts over a run ----

  /** The fact that an operation brings; a refusal names its Tool for a Provider's fault alone, and has no duration or reporter. */
  predicate Brings(op: Op, f: Fact) {
    match op
    case RecordOp(fact) => fact == f
    case RefuseOp(callRef, toolRef, fault, code, at) =>
      && f.kind.InvocationRefused? && f.sourceRef == callRef && f.occurredAt == at
      && (if fault then f.toolRef == Some(toolRef) else f.toolRef == None)
      && f.durationMs == None && f.reporterRef == None && f.refusalCode == Some(code)
    case _ => false
  }

  predicate BringsSource(op: Op, f: Fact) {
    || (op.RecordOp? && SameSource(op.fact, f))
    || (op.RefuseOp? && f.kind.InvocationRefused? && f.sourceRef == op.callRef)
  }

  lemma StepRecords(s: Store, op: Op, f: Fact)
    requires Mirrored(s)
    ensures f in Step(s, op).facts <==> f in s.facts || (Brings(op, f) && forall g :: g in s.facts ==> !SameSource(g, f))
  {
    if op.RecordOp? || op.RefuseOp? {
      var fact := if op.RecordOp? then op.fact else RefusalFact(op.callRef, op.toolRef, op.providerFault, op.publicCode, op.at);
      assert Brings(op, f) <==> f == fact;
      if Recorded(s.facts, fact.kind, fact.sourceRef) {
        var i :| 0 <= i < |s.facts| && s.facts[i].kind == fact.kind && s.facts[i].sourceRef == fact.sourceRef;
        assert s.facts[i] in s.facts && SameSource(s.facts[i], fact);
      } else {
        assert forall g :: g in s.facts ==> !SameSource(g, fact);
      }
    }
  }

  /** Over any run, a source is in the facts exactly if an operation brought it. */
  lemma {:induction false} SourcesAreBrought(ops: seq<Op>, f: Fact)
    ensures (exists g :: g in Run(EMPTY, ops).facts && SameSource(g, f)) <==> exists k :: 0 <= k < |ops| && BringsSource(ops[k], f)
  {
    if ops != [] {
      var before, op := ops[..|ops| - 1], ops[|ops| - 1];
      var s := Run(EMPTY, before);
      SourcesAreBrought(before, f);
      assert forall k :: 0 <= k < |before| ==> before[k] == ops[k];
      forall g: Fact
        ensures g in Step(s, op).facts <==> g in s.facts || (Brings(op, g) && forall h :: h in s.facts ==> !SameSource(h, g))
      {
        StepRecords(s, op, g);
      }
      if BringsSource(op, f) {
        var g := if op.RecordOp? then op.fact else RefusalFact(op.callRef, op.toolRef, op.providerFault, op.publicCode, op.at);
        assert Brings(op, g) && SameSource(g, f);
      }
    }
  }

  /** Over any run, the facts are exactly those first brought for their kind and source. */
  lemma {:induction false} FirstFactStays(ops: seq<Op>, f: Fact)
    ensures f in Run(EMPTY, ops).facts
            <==> exists k :: 0 <= k < |ops| && Brings(ops[k], f) && forall j :: 0 <= j < k ==> !BringsSource(ops[j], f)
  {
    if ops != [] {
      var before, op := ops[..|ops| - 1], ops[|ops| - 1];
      FirstFactStays(before, f);
      SourcesAreBrought(before, f);
      StepRecords(Run(EMPTY, before), op, f);
      assert forall k :: 0 <= k < |before| ==> before[k] == ops[k];
    }
  }

  // ---- ratings and categories over a run ----

  /** An accepted rating of this Tool by this reviewer. */
  predicate Rates(op: Op, toolRef: string, reviewer: string) {
    op.RateOp? && RateRefusal(op.request) == None && op.request.toolRef == toolRef && op.request.reviewer == Some(reviewer)
  }

  lemma StepRates(s: Store, op: Op, row: Rating)
    requires Holds(s)
    ensures var rated := op.RateOp? && Rates(op, row.toolRef, row.reviewerRef);
            row in Step(s, op).ratings
            <==> if !rated then row in s.ratings
                 else && row.score == op.request.score.score && row.updatedAt == op.now
                      && row.review == (if op.request.review.Some? then Some(Trim(op.request.review.value)) else None)
                      && if exists q :: q in s.ratings && SameReviewer(q, row)
                         then exists q :: q in s.ratings && SameReviewer(q, row) && q.createdAt == row.createdAt
                         else row.createdAt == op.now
  {
    if op.RateOp? && RateRefusal(op.request).None? {
      var r := op.request;
      var i, after := FindRating(s.ratings, r.toolRef, r.reviewer.value), Step(s, op).ratings;
      if i < |s.ratings| {
        assert s.ratings[i] in s.ratings;
        assert forall k :: 0 <= k < |s.ratings| && k != i ==> after[k] == s.ratings[k] && !SameReviewer(s.ratings[k], s.ratings[i]);
        assert after[i] in after;
      }
    }
  }

  predicate HasRated(s: Store, toolRef: string, reviewer: string) {
    exists q :: q in s.ratings && q.toolRef == toolRef && q.reviewerRef == reviewer
  }

  /** Over any run, a reviewer has a rating of a Tool exactly if one was accepted. */
  lemma {:induction false} RatedIff(ops: seq<Op>, toolRef: string, reviewer: string)
    ensures HasRated(Run(EMPTY, ops), toolRef, reviewer) <==> exists k :: 0 <= k < |ops| && Rates(ops[k], toolRef, reviewer)
  {
    if ops != [] {
      var before, op := ops[..|ops| - 1], ops[|ops| - 1];
      RatedIff(before, toolRef, reviewer);
      RunHolds(before);
      assert forall k :: 0 <= k < |before| ==> before[k] == ops[k];
      StepHasRated(Run(EMPTY, before), op, toolRef, reviewer);
    }
  }

  lemma StepHasRated(s: Store, op: Op, toolRef: string, reviewer: string)
    requires Holds(s)
    ensures HasRated(Step(s, op), toolRef, reviewer) <==> HasRated(s, toolRef, reviewer) || Rates(op, toolRef, reviewer)
  {
    var after := Step(s, op).ratings;
    if Rates(op, toolRef, reviewer) {
      var i := FindRating(s.ratings, toolRef, reviewer);
      assert after[i] in after;
    } else if op.RateOp? && RateRefusal(op.request).None? {
      var i := FindRating(s.ratings, op.request.toolRef, op.request.reviewer.value);
      assert forall k :: 0 <= k < |s.ratings| && k != i ==> after[k] == s.ratings[k];
      if q :| q in s.ratings && q.toolRef == toolRef && q.reviewerRef == reviewer { assert q in after; }
    }
  }

  /** Operation `k` is the first, or the last, accepted rating of this Tool by this reviewer. */
  predicate FirstRates(ops: seq<Op>, k: nat, toolRef: string, reviewer: string) {
    k < |ops| && Rates(ops[k], toolRef, reviewer) && forall j :: 0 <= j < k ==> !Rates(ops[j], toolRef, reviewer)
  }

  /** The row shows what this request brought. */
  predicate Shows(op: Op, row: Rating)
    requires op.RateOp?
  {
    && op.request.score == WholeScore(row.score) && op.now == row.updatedAt
    && row.review == (if op.request.review.Some? then Some(Trim(op.request.review.value)) else None)
  }

  predicate LastRates(ops: seq<Op>, k: nat, toolRef: string, reviewer: string) {
    k < |ops| && Rates(ops[k], toolRef, reviewer) && forall j :: k < j < |ops| ==> !Rates(ops[j], toolRef, reviewer)
  }

  /** The row dates from the first accepted rating of its Tool by its reviewer. */
  ghost predicate CreatedByFirst(ops: seq<Op>, row: Rating) {
    exists k: nat :: FirstRates(ops, k, row.toolRef, row.reviewerRef) && ops[k].now == row.createdAt
  }

  /** The row shows what the last accepted rating of its Tool by its reviewer brought. */
  ghost predicate ShowsLast(ops: seq<Op>, row: Rating) {
    exists k: nat :: LastRates(ops, k, row.toolRef, row.reviewerRef) && Shows(ops[k], row)
  }

  lemma FirstStep(ops: seq<Op>, op: Op, row: Rating)
    ensures CreatedByFirst(ops + [op], row)
            <==> if exists k :: 0 <= k < |ops| && Rates(ops[k], row.toolRef, row.reviewerRef) then CreatedByFirst(ops, row)
                 else Rates(op, row.toolRef, row.reviewerRef) && op.now == row.createdAt
  {
    var all, t, r := ops + [op], row.toolRef, row.reviewerRef;
    assert all[|ops|] == op && forall j :: 0 <= j < |ops| ==> all[j] == ops[j];
    forall k: nat | k < |ops|
      ensures FirstRates(all, k, t, r) <==> FirstRates(ops, k, t, r)
    {
    }
    assert FirstRates(all, |ops|, t, r) <==> Rates(op, t, r) && forall j :: 0 <= j < |ops| ==> !Rates(ops[j], t, r);
  }

  lemma LastStep(ops: seq<Op>, op: Op, row: Rating)
    ensures ShowsLast(ops + [op], row)
            <==> if Rates(op, row.toolRef, row.reviewerRef) then Shows(op, row) else ShowsLast(ops, row)
  {
    var all, t, r := ops + [op], row.toolRef, row.reviewerRef;
    assert all[|ops|] == op && forall j :: 0 <= j < |ops| ==> all[j] == ops[j];
    if Rates(op, t, r) {
      assert LastRates(all, |ops|, t, r);
    } else {
      forall k: nat | k < |ops|
        ensures LastRates(all, k, t, r) <==> LastRates(ops, k, t, r)
      {
      }
    }
  }

  lemma SameFirst(ops: seq<Op>, q: Rating, row: Rating)
    requires CreatedByFirst(ops, q) && SameReviewer(q, row)
    ensures CreatedByFirst(ops, row) <==> q.createdAt == row.createdAt
  {
  }

  /**
   Over any run, the rating rows are exactly those of the accepted requests: created with a
   reviewer's first rating of a Tool, and showing the score, trimmed review and time of the last.
   */
  lemma {:induction false} RatingsShowTheLast(ops: seq<Op>, row: Rating)
    ensures row in Run(EMPTY, ops).ratings <==> CreatedByFirst(ops, row) && ShowsLast(ops, row)
  {
    if ops != [] {
      var before, op := ops[..|ops| - 1], ops[|ops| - 1];
      var s := Run(EMPTY, before);
      assert ops == before + [op];
      RunHolds(before);
      StepRates(s, op, row);
      RatedIff(before, row.toolRef, row.reviewerRef);
      FirstStep(before, op, row);
      LastStep(before, op, row);
      RatingsShowTheLast(before, row);
      forall q | q in s.ratings && SameReviewer(q, row)
        ensures CreatedByFirst(before, row) <==> q.createdAt == row.createdAt
      {
        RatingsShowTheLast(before, q);
        SameFirst(before, q, row);
      }
    }
  }

  /** Over any run, a Tool has the category that its last valid assignment gave it, and none without one. */
  lemma {:induction false} LastAssignmentWins(ops: seq<Op>, toolRef: string, k: nat)
    requires k < |ops| && ops[k].AssignOp? && ops[k].toolRef == toolRef
    requires IsPublicToolRef(toolRef) && ops[k].category in CATEGORIES
    requires forall j :: k < j < |ops| && ops[j].AssignOp? && ops[j].toolRef == toolRef ==> ops[j].category !in CATEGORIES
    ensures toolRef in Run(EMPTY, ops).categories && Run(EMPTY, ops).categories[toolRef] == ops[k].category
  {
    var before := ops[..|ops| - 1];
    if k < |before| { LastAssignmentWins(before, toolRef, k); }
  }
}
