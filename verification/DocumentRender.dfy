/**
 Rendering a financial document and attaching its two files. Storage and the
 attachment are separate commits, the answer of either can be lost, and any
 number of renders of the same document may run at once. Digests are taken to be
 injective, so a digest is the bytes it stands for.
 */
module DocumentRender {
  import opened Wrappers

  datatype DocState = Rendering | AwaitingSignature | Issued | OtherState

  datatype Doc = Doc(
    inputDigest: string, state: DocState, dailyClose: bool,
    html: Option<nat>, htmlDigest: Option<string>, csv: Option<nat>, csvDigest: Option<string>)

  datatype AttachResult = Attached(html: nat, csv: nat) | Replayed(html: nat, csv: nat) | AttachRefused

  /** One call of the attachment mutation. */
  datatype Submission = Submission(
    doc: string, inputDigest: string, html: nat, htmlBytes: string, csv: nat, csvBytes: string)

  predicate FullyAttached(d: Doc) { d.html.Some? && d.csv.Some? }

  /** The attachment mutation: the first matching pair wins, and is never replaced. */
  function Attach(docs: map<string, Doc>, a: Submission): (map<string, Doc>, AttachResult) {
    if a.doc !in docs || docs[a.doc].inputDigest != a.inputDigest then (docs, AttachRefused)
    else
      var d := docs[a.doc];
      if FullyAttached(d) then
        if d.htmlDigest != Some(a.htmlBytes) || d.csvDigest != Some(a.csvBytes) then (docs, AttachRefused)
        else (docs, Replayed(d.html.value, d.csv.value))
      else if !d.state.Rendering? || d.html.Some? || d.csv.Some? then (docs, AttachRefused)
      else (docs[a.doc := d.(html := Some(a.html), htmlDigest := Some(a.htmlBytes),
                             csv := Some(a.csv), csvDigest := Some(a.csvBytes),
                             state := if d.dailyClose then AwaitingSignature else Issued)],
            Attached(a.html, a.csv))
  }

  /** The pair a run may report after its call threw, if the row shows one for the same bytes. */
  function ReadBackPair(docs: map<string, Doc>, a: Submission): Option<(nat, nat)> {
    if a.doc in docs
       && (docs[a.doc].state.Rendering? || docs[a.doc].state.AwaitingSignature? || docs[a.doc].state.Issued?)
       && docs[a.doc].inputDigest == a.inputDigest && FullyAttached(docs[a.doc])
       && docs[a.doc].htmlDigest == Some(a.htmlBytes) && docs[a.doc].csvDigest == Some(a.csvBytes)
    then Some((docs[a.doc].html.value, docs[a.doc].csv.value))
    else None
  }

  /** The files of a submission that are not the canonical pair. */
  function Spare(a: Submission, html: nat, csv: nat): seq<nat> {
    (if a.html != html && a.html != csv then [a.html] else [])
    + (if a.csv != html && a.csv != csv then [a.csv] else [])
  }

  datatype Outcome = Available(doc: string, html: nat, csv: nat) | Threw

  /** Where one render stands. */
  datatype Phase =
    | Snapshot(doc: string, row: Doc)
    | HtmlStored(doc: string, inputDigest: string, html: nat, htmlBytes: string)
    | BothStored(call: Submission)
    | Submitted(call: Submission)
    | Uncertain(call: Submission)              // the call threw: it may commit later, or never
    | Cleaning(files: seq<nat>, outcome: Outcome)
    | Ended(outcome: Outcome)

  /** A stored file remembers the run that stored it; the program does not. */
  datatype File = File(bytes: string, owner: nat)

  /** Submissions are keyed by run; `answers` holds those that committed. */
  datatype Sys = Sys(
    files: map<nat, File>, docs: map<string, Doc>, runs: map<nat, Phase>,
    calls: map<nat, Submission>, answers: map<nat, AttachResult>, next: nat, leaked: set<nat>)

  datatype Event =
    | CreateDoc(doc: string, inputDigest: string, state: DocState, dailyClose: bool)
    | ChangeDoc(doc: string, inputDigest: string, state: DocState) // other writers never touch the files
    | Start(doc: string)
    | StoreHtml(run: nat, bytes: string, ok: bool)
    | StoreCsv(run: nat, bytes: string, ok: bool)
    | Submit(run: nat)
    | Commit(run: nat)                          // the submitted mutation commits, whenever that is
    | Acknowledge(run: nat)
    | LoseAnswer(run: nat)
    | ReadBack(run: nat)
    | Delete(run: nat, ok: bool)                // a failed deletion is tolerated
    | Crash(run: nat)

  predicate FileFault(e: Event) {
    e.Crash? || e.LoseAnswer? || (e.Delete? && !e.ok)
  }

  /** The files a phase still answers for. */
  function Held(p: Phase): set<nat> {
    match p
    case Snapshot(_, _) => {}
    case HtmlStored(_, _, html, _) => {html}
    case BothStored(a) => {a.html, a.csv}
    case Submitted(a) => {a.html, a.csv}
    case Uncertain(a) => {a.html, a.csv}
    case Cleaning(files, _) => set i | 0 <= i < |files| :: files[i]
    case Ended(_) => {}
  }

  function SetRun(s: Sys, run: nat, p: Phase): Sys { s.(runs := s.runs[run := p]) }

  function Created(inputDigest: string, state: DocState, dailyClose: bool): Doc {
    Doc(inputDigest, state, dailyClose, None, None, None, None)
  }

  /** A render that finds its files attached is done; one that may not render throws. */
  function StartRun(s: Sys, doc: string): Sys {
    if doc !in s.docs then s else
      var d := s.docs[doc];
      s.(next := s.next + 1,
         runs := s.runs[s.next := if FullyAttached(d) then Ended(Available(doc, d.html.value, d.csv.value))
                                  else if !d.state.Rendering? then Ended(Threw)
                                  else Snapshot(doc, d)])
  }

  function Stored(s: Sys, bytes: string, owner: nat): Sys {
    s.(files := s.files[s.next := File(bytes, owner)], next := s.next + 1)
  }

  function Answered(a: Submission, r: AttachResult): Phase {
    match r
    case AttachRefused => Cleaning([a.html, a.csv], Threw)
    case Attached(html, csv) => Cleaning(Spare(a, html, csv), Available(a.doc, html, csv))
    case Replayed(html, csv) => Cleaning(Spare(a, html, csv), Available(a.doc, html, csv))
  }

  function SubmitCall(s: Sys, run: nat): Sys
    requires run in s.runs && s.runs[run].BothStored?
  {
    SetRun(s.(calls := s.calls[run := s.runs[run].call]), run, Submitted(s.runs[run].call))
  }

  /** The first file to clean up is deleted, or left over when its deletion failed. */
  function DeleteFirst(s: Sys, run: nat, ok: bool): Sys
    requires run in s.runs && s.runs[run].Cleaning? && s.runs[run].files != []
  {
    var Cleaning(files, outcome) := s.runs[run];
    SetRun(if ok then s.(files := s.files - {files[0]}) else s.(leaked := s.leaked + {files[0]}),
           run, Cleaning(files[1..], outcome))
  }

  function Step(s: Sys, e: Event): Sys {
    match e
    case CreateDoc(doc, inputDigest, state, daily) =>
      if doc in s.docs then s else s.(docs := s.docs[doc := Created(inputDigest, state, daily)])
    case ChangeDoc(doc, inputDigest, state) =>
      if doc !in s.docs then s
      else s.(docs := s.docs[doc := s.docs[doc].(inputDigest := inputDigest, state := state)])
    case Start(doc) => StartRun(s, doc)
    case StoreHtml(run, bytes, ok) =>
      if run !in s.runs || !s.runs[run].Snapshot? then s
      else if !ok then SetRun(s, run, Ended(Threw))
      else SetRun(Stored(s, bytes, run), run, HtmlStored(s.runs[run].doc, s.runs[run].row.inputDigest, s.next, bytes))
    case StoreCsv(run, bytes, ok) =>
      if run !in s.runs || !s.runs[run].HtmlStored? then s
      else if !ok then SetRun(s, run, Cleaning([s.runs[run].html], Threw))
      else
        var p := s.runs[run];
        SetRun(Stored(s, bytes, run), run,
               BothStored(Submission(p.doc, p.inputDigest, p.html, p.htmlBytes, s.next, bytes)))
    case Submit(run) =>
      if run !in s.runs || !s.runs[run].BothStored? then s else SubmitCall(s, run)
    case Commit(run) =>
      if run !in s.calls || run in s.answers then s
      else s.(docs := Attach(s.docs, s.calls[run]).0, answers := s.answers[run := Attach(s.docs, s.calls[run]).1])
    case Acknowledge(run) =>
      if run !in s.runs || !s.runs[run].Submitted? || run !in s.answers then s
      else SetRun(s, run, Answered(s.runs[run].call, s.answers[run]))
    case LoseAnswer(run) =>
      if run !in s.runs || !s.runs[run].Submitted? then s else SetRun(s, run, Uncertain(s.runs[run].call))
    case ReadBack(run) =>
      if run !in s.runs || !s.runs[run].Uncertain? then s else
        var a := s.runs[run].call;
        (match ReadBackPair(s.docs, a)
         case None => SetRun(s, run, Ended(Threw)).(leaked := s.leaked + {a.html, a.csv})
         case Some((html, csv)) => SetRun(s, run, Cleaning(Spare(a, html, csv), Available(a.doc, html, csv))))
    case Delete(run, ok) =>
      if run !in s.runs || !s.runs[run].Cleaning? then s
      else if s.runs[run].files == [] then SetRun(s, run, Ended(s.runs[run].outcome))
      else DeleteFirst(s, run, ok)
    case Crash(run) =>
      if run !in s.runs || s.runs[run].Ended? then s
      else SetRun(s, run, Ended(Threw)).(leaked := s.leaked + Held(s.runs[run]))
  }

  function Run(s: Sys, events: seq<Event>): Sys {
    if events == [] then s else Step(Run(s, events[..|events| - 1]), events[|events| - 1])
  }

  const EMPTY := Sys(map[], map[], map[], map[], map[], 0, {})

  // ---- the invariant ----

  predicate HasFile(s: Sys, f: nat, bytes: string, owner: nat) {
    f in s.files && s.files[f] == File(bytes, owner)
  }

  predicate Pending(s: Sys, run: nat) { run in s.calls && run !in s.answers }

  predicate DocAttached(s: Sys, doc: string) { doc in s.docs && FullyAttached(s.docs[doc]) }

  /** Both files of a row come from one committed call, and are stored with the recorded bytes. */
  predicate DocHolds(s: Sys, doc: string)
    requires doc in s.docs
  {
    var d := s.docs[doc];
    && (d.html.Some? <==> d.csv.Some?) && (d.html.Some? <==> d.htmlDigest.Some?) && (d.csv.Some? <==> d.csvDigest.Some?)
    && (FullyAttached(d) ==>
          && d.html.value in s.files
          && var run := s.files[d.html.value].owner;
          && HasFile(s, d.html.value, d.htmlDigest.value, run) && HasFile(s, d.csv.value, d.csvDigest.value, run)
          && run in s.answers && s.answers[run] == Attached(d.html.value, d.csv.value)
          && run in s.calls && s.calls[run].doc == doc)
  }

  predicate CallStored(s: Sys, run: nat, a: Submission) {
    HasFile(s, a.html, a.htmlBytes, run) && HasFile(s, a.csv, a.csvBytes, run) && a.html != a.csv
  }

  /** A call that has not committed keeps both its files while its row could still take them. */
  predicate CallHolds(s: Sys, run: nat) {
    Pending(s, run) ==> DocAttached(s, s.calls[run].doc) || CallStored(s, run, s.calls[run])
  }

  predicate OnRow(s: Sys, doc: string, html: nat, csv: nat) {
    doc in s.docs && s.docs[doc].html == Some(html) && s.docs[doc].csv == Some(csv)
  }

  predicate OutcomeHolds(s: Sys, o: Outcome) { o.Available? ==> OnRow(s, o.doc, o.html, o.csv) }

  /** A file being deleted is the run's own, and neither attached nor attachable. */
  predicate Deletable(s: Sys, run: nat, f: nat) {
    && (f in s.files ==> s.files[f].owner == run)
    && f < s.next
    && (run in s.answers ==> s.answers[run].Attached? ==> f != s.answers[run].html && f != s.answers[run].csv)
    && (Pending(s, run) ==> DocAttached(s, s.calls[run].doc))
  }

  ghost predicate RunHolds(s: Sys, run: nat, p: Phase) {
    match p
    case Snapshot(_, _) => run !in s.calls && run !in s.answers
    case HtmlStored(_, _, html, bytes) => run !in s.calls && run !in s.answers && HasFile(s, html, bytes, run)
    case BothStored(a) => run !in s.calls && run !in s.answers && CallStored(s, run, a)
    case Submitted(a) => run in s.calls && s.calls[run] == a && CallStored(s, run, a)
    case Uncertain(a) => run in s.calls && s.calls[run] == a && CallStored(s, run, a)
    case Cleaning(files, o) =>
      && (forall i :: 0 <= i < |files| ==> Deletable(s, run, files[i]) && files[i] in s.files)
      && (forall i, j :: 0 <= i < j < |files| ==> files[i] != files[j])
      && OutcomeHolds(s, o)
    case Ended(o) => OutcomeHolds(s, o)
  }

  /** What the mutation answered. */
  predicate AnswerHolds(s: Sys, run: nat)
    requires run in s.answers
  {
    && run in s.calls
    && match s.answers[run]
       case Attached(html, csv) =>
         html == s.calls[run].html && csv == s.calls[run].csv && OnRow(s, s.calls[run].doc, html, csv)
       case Replayed(html, csv) =>
         OnRow(s, s.calls[run].doc, html, csv)
       case AttachRefused => true
  }

  ghost predicate DocsHold(s: Sys) { forall doc :: doc in s.docs ==> DocHolds(s, doc) }

  ghost predicate CallsHold(s: Sys) {
    && (forall run :: run in s.calls ==> run < s.next && CallHolds(s, run))
    && (forall run :: run in s.answers ==> AnswerHolds(s, run))
  }

  ghost predicate RunsHold(s: Sys) { forall run :: run in s.runs ==> run < s.next && RunHolds(s, run, s.runs[run]) }

  ghost predicate FilesHold(s: Sys) { forall f :: f in s.files ==> f < s.next && s.files[f].owner in s.runs }

  ghost predicate Holds(s: Sys) { DocsHold(s) && CallsHold(s) && RunsHold(s) && FilesHold(s) }

  // ---- each step ----

  /** Files, calls and answers may only grow, and no row loses its pair. */
  ghost predicate Grows(s: Sys, after: Sys) {
    && s.next <= after.next
    && (forall f :: f in s.files ==> f in after.files && after.files[f] == s.files[f])
    && (forall f :: f in after.files && f !in s.files ==> f >= s.next)
    && after.calls == s.calls && after.answers == s.answers
    && (forall doc :: doc in s.docs ==> doc in after.docs && SameFiles(s.docs[doc], after.docs[doc]))
  }

  predicate SameFiles(d: Doc, e: Doc) {
    e.html == d.html && e.csv == d.csv && e.htmlDigest == d.htmlDigest && e.csvDigest == d.csvDigest
  }

  lemma GrowsKeepsRun(s: Sys, after: Sys, run: nat, p: Phase)
    requires Grows(s, after) && RunHolds(s, run, p)
    ensures RunHolds(after, run, p)
  {
  }

  lemma GrowsKeepsCalls(s: Sys, after: Sys)
    requires Grows(s, after) && CallsHold(s)
    ensures CallsHold(after)
  {
    forall run | run in after.calls
      ensures CallHolds(after, run)
    {
      assert CallHolds(s, run);
    }
    forall run | run in after.answers
      ensures AnswerHolds(after, run)
    {
      assert AnswerHolds(s, run);
    }
  }

  /** A step that only grows, and moves at most one run to a phase that holds. */
  lemma GrowsHolds(s: Sys, after: Sys, run: nat)
    requires Holds(s) && Grows(s, after)
    requires forall doc :: doc in after.docs && doc !in s.docs ==> after.docs[doc].html.None? && DocHolds(after, doc)
    requires forall r :: r in after.runs && r != run ==> r in s.runs && after.runs[r] == s.runs[r]
    requires forall r :: r in s.runs ==> r in after.runs
    requires run in after.runs ==> run < after.next && RunHolds(after, run, after.runs[run])
    requires forall f :: f in after.files && f !in s.files ==> f < after.next && after.files[f].owner in after.runs
    ensures Holds(after)
  {
    GrowsKeepsCalls(s, after);
    forall doc | doc in after.docs
      ensures DocHolds(after, doc)
    {
      if doc in s.docs { assert DocHolds(s, doc); }
    }
    forall r | r in after.runs
      ensures r < after.next && RunHolds(after, r, after.runs[r])
    {
      if r != run { GrowsKeepsRun(s, after, r, s.runs[r]); }
    }
  }

  lemma AnswersWereCalled(s: Sys)
    requires CallsHold(s)
    ensures forall run :: run in s.answers ==> run in s.calls && run < s.next
  {
    forall run | run in s.answers
      ensures run in s.calls && run < s.next
    {
      assert AnswerHolds(s, run);
    }
  }

  lemma StartHolds(s: Sys, doc: string)
    requires Holds(s)
    ensures Holds(StartRun(s, doc))
  {
    if doc in s.docs {
      AnswersWereCalled(s);
      GrowsHolds(s, StartRun(s, doc), s.next);
    }
  }

  /** A run stores one more file and moves to a phase that holds. */
  lemma StoredHolds(s: Sys, run: nat, bytes: string, p: Phase)
    requires Holds(s) && run in s.runs && RunHolds(Stored(s, bytes, run), run, p)
    ensures Holds(SetRun(Stored(s, bytes, run), run, p))
  {
    var after := SetRun(Stored(s, bytes, run), run, p);
    assert RunHolds(after, run, p) by { GrowsKeepsRun(Stored(s, bytes, run), after, run, p); }
    GrowsHolds(s, after, run);
  }

  /** A run moves to a phase that holds, and nothing else changes but the list of leaks. */
  lemma MovedHolds(s: Sys, run: nat, p: Phase, leaked: set<nat>)
    requires Holds(s) && run in s.runs && RunHolds(s, run, p)
    ensures Holds(SetRun(s, run, p).(leaked := leaked))
  {
    var after := SetRun(s, run, p).(leaked := leaked);
    assert RunHolds(after, run, p) by { GrowsKeepsRun(s, after, run, p); }
    GrowsHolds(s, after, run);
  }

  lemma StoreHtmlHolds(s: Sys, run: nat, bytes: string, ok: bool)
    requires Holds(s)
    ensures Holds(Step(s, StoreHtml(run, bytes, ok)))
  {
    if run in s.runs && s.runs[run].Snapshot? {
      assert RunHolds(s, run, s.runs[run]);
      if ok {
        StoredHolds(s, run, bytes, HtmlStored(s.runs[run].doc, s.runs[run].row.inputDigest, s.next, bytes));
      } else {
        MovedHolds(s, run, Ended(Threw), s.leaked);
      }
    }
  }

  lemma StoreCsvHolds(s: Sys, run: nat, bytes: string, ok: bool)
    requires Holds(s)
    ensures Holds(Step(s, StoreCsv(run, bytes, ok)))
  {
    if run in s.runs && s.runs[run].HtmlStored? {
      var p := s.runs[run];
      assert RunHolds(s, run, p);
      if ok {
        StoredHolds(s, run, bytes, BothStored(Submission(p.doc, p.inputDigest, p.html, p.htmlBytes, s.next, bytes)));
      } else {
        MovedHolds(s, run, Cleaning([p.html], Threw), s.leaked);
      }
    }
  }

  /** Reading an answer: the spare files are the run's own, and the canonical pair is on its row. */
  lemma AcknowledgeHolds(s: Sys, run: nat)
    requires Holds(s)
    ensures Holds(Step(s, Acknowledge(run)))
  {
    if run in s.runs && s.runs[run].Submitted? && run in s.answers {
      assert RunHolds(s, run, s.runs[run]);
      assert AnswerHolds(s, run);
      MovedHolds(s, run, Answered(s.runs[run].call, s.answers[run]), s.leaked);
    }
  }

  /** A pair read back from the row makes this run's own pending call harmless. */
  lemma ReadBackHolds(s: Sys, run: nat)
    requires Holds(s)
    ensures Holds(Step(s, ReadBack(run)))
  {
    if run in s.runs && s.runs[run].Uncertain? {
      var a := s.runs[run].call;
      assert RunHolds(s, run, s.runs[run]);
      if run in s.answers { assert AnswerHolds(s, run); }
      match ReadBackPair(s.docs, a)
      case None => MovedHolds(s, run, Ended(Threw), s.leaked + {a.html, a.csv});
      case Some((html, csv)) => MovedHolds(s, run, Cleaning(Spare(a, html, csv), Available(a.doc, html, csv)), s.leaked);
    }
  }

  lemma QuietHolds(s: Sys, e: Event)
    requires Holds(s) && (e.LoseAnswer? || e.Crash?)
    ensures Holds(Step(s, e))
  {
    if e.run in s.runs {
      assert RunHolds(s, e.run, s.runs[e.run]);
      if e.Crash? && !s.runs[e.run].Ended? {
        MovedHolds(s, e.run, Ended(Threw), s.leaked + Held(s.runs[e.run]));
      } else if e.LoseAnswer? && s.runs[e.run].Submitted? {
        MovedHolds(s, e.run, Uncertain(s.runs[e.run].call), s.leaked);
      }
    }
  }

  /** A writer that creates a bare row, or changes anything but the files of one. */
  lemma DocWriterHolds(s: Sys, doc: string, d: Doc)
    requires Holds(s)
    requires if doc in s.docs then SameFiles(s.docs[doc], d)
             else d.html.None? && d.csv.None? && d.htmlDigest.None? && d.csvDigest.None?
    ensures Holds(s.(docs := s.docs[doc := d]))
  {
    assert s.next !in s.runs;
    if doc in s.docs { assert DocHolds(s, doc); }
    GrowsHolds(s, s.(docs := s.docs[doc := d]), s.next);
  }

  lemma SubmitHolds(s: Sys, run: nat)
    requires Holds(s)
    ensures Holds(Step(s, Submit(run)))
  {
    if run in s.runs && s.runs[run].BothStored? { SubmitCallHolds(s, run); }
  }

  lemma SubmitCallHolds(s: Sys, run: nat)
    requires Holds(s) && run in s.runs && s.runs[run].BothStored?
    ensures Holds(SubmitCall(s, run))
  {
    var after := SubmitCall(s, run);
    assert RunHolds(s, run, s.runs[run]);
    forall doc | doc in after.docs
      ensures DocHolds(after, doc)
    {
      assert DocHolds(s, doc);
    }
    forall r | r in after.calls
      ensures CallHolds(after, r)
    {
      if r != run { assert CallHolds(s, r); }
    }
    forall r | r in after.answers
      ensures AnswerHolds(after, r)
    {
      assert AnswerHolds(s, r);
    }
    forall r | r in after.runs
      ensures RunHolds(after, r, after.runs[r])
    {
      assert RunHolds(s, r, s.runs[r]);
    }
  }

  /** A row that another call did not touch still holds once that call is answered. */
  lemma AnsweredKeepsDoc(s: Sys, after: Sys, run: nat, doc: string)
    requires doc in s.docs && doc in after.docs && after.docs[doc] == s.docs[doc]
    requires DocHolds(s, doc) && run !in s.answers && after.files == s.files && after.calls == s.calls
    requires forall r :: r in s.answers ==> r in after.answers && after.answers[r] == s.answers[r]
    ensures DocHolds(after, doc)
  {
  }

  lemma CommitKeepsDocs(s: Sys, run: nat)
    requires Holds(s) && Pending(s, run)
    ensures DocsHold(Step(s, Commit(run)))
  {
    var after, a := Step(s, Commit(run)), s.calls[run];
    assert CallHolds(s, run);
    forall doc | doc in after.docs
      ensures DocHolds(after, doc)
    {
      assert DocHolds(s, doc);
      if after.docs[doc] == s.docs[doc] { AnsweredKeepsDoc(s, after, run, doc); }
    }
  }

  /** No committed call takes a pair off a row. */
  lemma CommitKeepsPairs(s: Sys, run: nat, doc: string)
    requires Holds(s) && Pending(s, run) && DocAttached(s, doc)
    ensures doc in Step(s, Commit(run)).docs && Step(s, Commit(run)).docs[doc] == s.docs[doc]
  {
  }

  lemma CommitKeepsRow(s: Sys, run: nat, doc: string, html: nat, csv: nat)
    requires Holds(s) && Pending(s, run) && OnRow(s, doc, html, csv)
    ensures OnRow(Step(s, Commit(run)), doc, html, csv)
  {
    CommitKeepsPairs(s, run, doc);
  }

  lemma CommitKeepsCalls(s: Sys, run: nat)
    requires Holds(s) && Pending(s, run)
    ensures CallsHold(Step(s, Commit(run)))
  {
    var after := Step(s, Commit(run));
    forall r | r in after.calls
      ensures CallHolds(after, r)
    {
      assert CallHolds(s, r);
      if DocAttached(s, s.calls[r].doc) { CommitKeepsPairs(s, run, s.calls[r].doc); }
    }
    forall r | r in after.answers
      ensures AnswerHolds(after, r)
    {
      if r != run {
        assert AnswerHolds(s, r);
        if !s.answers[r].AttachRefused? {
          CommitKeepsRow(s, run, s.calls[r].doc, s.answers[r].html, s.answers[r].csv);
        }
      }
    }
  }

  lemma CommitKeepsRun(s: Sys, run: nat, r: nat)
    requires Holds(s) && Pending(s, run) && r in s.runs
    ensures RunHolds(Step(s, Commit(run)), r, s.runs[r])
  {
    var after, p := Step(s, Commit(run)), s.runs[r];
    assert RunHolds(s, r, p);
    match p
    case Cleaning(files, o) =>
      if o.Available? { CommitKeepsRow(s, run, o.doc, o.html, o.csv); }
      if Pending(s, r) && files != [] {
        assert Deletable(s, r, files[0]);
        CommitKeepsPairs(s, run, s.calls[r].doc);
      }
      forall i | 0 <= i < |files|
        ensures Deletable(after, r, files[i])
      {
        assert Deletable(s, r, files[i]);
      }
    case Ended(o) => if o.Available? { CommitKeepsRow(s, run, o.doc, o.html, o.csv); }
    case _ =>
  }

  /** Committing attaches only files that are still stored, and only where no pair is attached. */
  lemma CommitHolds(s: Sys, run: nat)
    requires Holds(s)
    ensures Holds(Step(s, Commit(run)))
  {
    if Pending(s, run) {
      CommitKeepsDocs(s, run);
      CommitKeepsCalls(s, run);
      forall r | r in s.runs
        ensures RunHolds(Step(s, Commit(run)), r, s.runs[r])
      {
        CommitKeepsRun(s, run, r);
      }
    }
  }

  /** A file that is being deleted is on no row. */
  lemma DeletableIsOffRows(s: Sys, run: nat, f: nat, doc: string)
    requires Holds(s) && Deletable(s, run, f) && doc in s.docs
    ensures s.docs[doc].html != Some(f) && s.docs[doc].csv != Some(f)
  {
    assert DocHolds(s, doc);
  }

  /** Deleting one of its files, or failing to, disturbs no row, call or other run. */
  lemma DeleteKeepsRun(s: Sys, run: nat, ok: bool, r: nat)
    requires Holds(s) && run in s.runs && s.runs[run].Cleaning? && s.runs[run].files != []
    requires r in s.runs
    ensures RunHolds(DeleteFirst(s, run, ok), r, DeleteFirst(s, run, ok).runs[r])
  {
    var after, f := DeleteFirst(s, run, ok), s.runs[run].files[0];
    assert RunHolds(s, run, s.runs[run]);
    assert Deletable(s, run, f);
    assert RunHolds(s, r, s.runs[r]);
    if r == run {
      forall i | 0 <= i < |after.runs[r].files|
        ensures Deletable(after, r, after.runs[r].files[i]) && after.runs[r].files[i] in after.files
      {
        assert after.runs[r].files[i] == s.runs[r].files[i + 1];
        assert Deletable(s, r, s.runs[r].files[i + 1]);
      }
    } else if s.runs[r].Cleaning? {
      forall i | 0 <= i < |s.runs[r].files|
        ensures Deletable(after, r, s.runs[r].files[i]) && s.runs[r].files[i] in after.files
      {
        assert Deletable(s, r, s.runs[r].files[i]);
      }
    }
  }

  lemma DeleteHolds(s: Sys, run: nat, ok: bool)
    requires Holds(s)
    ensures Holds(Step(s, Delete(run, ok)))
  {
    if run in s.runs && s.runs[run].Cleaning? {
      assert RunHolds(s, run, s.runs[run]);
      if s.runs[run].files == [] {
        MovedHolds(s, run, Ended(s.runs[run].outcome), s.leaked);
      } else {
        DeleteFirstHolds(s, run, ok);
      }
    }
  }

  lemma DeleteFirstHolds(s: Sys, run: nat, ok: bool)
    requires Holds(s) && run in s.runs && s.runs[run].Cleaning? && s.runs[run].files != []
    ensures Holds(DeleteFirst(s, run, ok))
  {
    var after, f := DeleteFirst(s, run, ok), s.runs[run].files[0];
    assert RunHolds(s, run, s.runs[run]) && Deletable(s, run, f);
    forall doc | doc in after.docs
      ensures DocHolds(after, doc)
    {
      assert DocHolds(s, doc);
      DeletableIsOffRows(s, run, f, doc);
    }
    forall r | r in after.calls
      ensures CallHolds(after, r)
    {
      assert CallHolds(s, r);
    }
    forall r | r in after.answers
      ensures AnswerHolds(after, r)
    {
      assert AnswerHolds(s, r);
    }
    forall r | r in after.runs
      ensures RunHolds(after, r, after.runs[r])
    {
      DeleteKeepsRun(s, run, ok, r);
    }
  }

  lemma StepHolds(s: Sys, e: Event)
    requires Holds(s)
    ensures Holds(Step(s, e))
  {
    match e
    case Start(doc) => StartHolds(s, doc);
    case CreateDoc(doc, inputDigest, state, daily) =>
      if doc !in s.docs { DocWriterHolds(s, doc, Created(inputDigest, state, daily)); }
    case ChangeDoc(doc, inputDigest, state) =>
      if doc in s.docs { DocWriterHolds(s, doc, s.docs[doc].(inputDigest := inputDigest, state := state)); }
    case StoreHtml(run, bytes, ok) => StoreHtmlHolds(s, run, bytes, ok);
    case StoreCsv(run, bytes, ok) => StoreCsvHolds(s, run, bytes, ok);
    case Submit(run) => SubmitHolds(s, run);
    case Commit(run) => CommitHolds(s, run);
    case Acknowledge(run) => AcknowledgeHolds(s, run);
    case ReadBack(run) => ReadBackHolds(s, run);
    case Delete(run, ok) => DeleteHolds(s, run, ok);
    case _ => QuietHolds(s, e);
  }

  lemma {:induction false} RunHoldsAll(events: seq<Event>)
    ensures Holds(Run(EMPTY, events))
  {
    if events != [] {
      RunHoldsAll(events[..|events| - 1]);
      StepHolds(Run(EMPTY, events[..|events| - 1]), events[|events| - 1]);
    }
  }

  // ---- theorems ----

  /** No file referenced by a row is ever missing: it is stored, with exactly the bytes the row records. */
  lemma {:induction false} ReferencedFilesExist(events: seq<Event>, doc: string)
    requires doc in Run(EMPTY, events).docs
    ensures var s := Run(EMPTY, events);
            var d := s.docs[doc];
            && (d.html.Some? <==> d.csv.Some?)
            && (d.html.Some? ==> d.html.value in s.files && d.htmlDigest == Some(s.files[d.html.value].bytes))
            && (d.csv.Some? ==> d.csv.value in s.files && d.csvDigest == Some(s.files[d.csv.value].bytes))
  {
    RunHoldsAll(events);
    assert DocHolds(Run(EMPTY, events), doc);
  }

  /** Two rows never share a file. */
  lemma {:induction false} RowsShareNoFile(events: seq<Event>, a: string, b: string)
    requires a in Run(EMPTY, events).docs && b in Run(EMPTY, events).docs && a != b
    ensures var s := Run(EMPTY, events);
            FullyAttached(s.docs[a]) && FullyAttached(s.docs[b])
            ==> {s.docs[a].html.value, s.docs[a].csv.value} !! {s.docs[b].html.value, s.docs[b].csv.value}
  {
    RunHoldsAll(events);
    var s := Run(EMPTY, events);
    assert DocHolds(s, a) && DocHolds(s, b);
  }

  /** Once a row has its pair, no step changes the pair or its digests. */
  lemma StepKeepsPair(s: Sys, e: Event, doc: string)
    requires Holds(s) && DocAttached(s, doc)
    ensures doc in Step(s, e).docs && SameFiles(s.docs[doc], Step(s, e).docs[doc])
  {
    if e.Commit? && Pending(s, e.run) { CommitKeepsPairs(s, e.run, doc); }
  }

  lemma {:induction false} PairIsForever(s: Sys, events: seq<Event>, doc: string)
    requires Holds(s) && DocAttached(s, doc)
    ensures Holds(Run(s, events)) && doc in Run(s, events).docs && SameFiles(s.docs[doc], Run(s, events).docs[doc])
  {
    if events != [] {
      var before, last := Run(s, events[..|events| - 1]), events[|events| - 1];
      PairIsForever(s, events[..|events| - 1], doc);
      StepHolds(before, last);
      StepKeepsPair(before, last, doc);
    }
  }

  /**
   When a run reports a pair available, both files are stored, on the row, and stay so
   whatever other runs, lost answers, crashes and deletions follow.
   */
  lemma {:induction false} AvailableStaysAvailable(past: seq<Event>, more: seq<Event>, run: nat)
    requires run in Run(EMPTY, past).runs && Run(EMPTY, past).runs[run].Ended?
    requires Run(EMPTY, past).runs[run].outcome.Available?
    ensures var o := Run(EMPTY, past).runs[run].outcome;
            var later := Run(Run(EMPTY, past), more);
            OnRow(later, o.doc, o.html, o.csv) && o.html in later.files && o.csv in later.files
  {
    var s := Run(EMPTY, past);
    var o := s.runs[run].outcome;
    RunHoldsAll(past);
    assert RunHolds(s, run, Ended(o));
    PairIsForever(s, more, o.doc);
    assert DocHolds(Run(s, more), o.doc);
  }

  // ---- nothing is lost when nothing goes wrong ----

  ghost predicate Referenced(s: Sys, f: nat) {
    exists doc :: doc in s.docs && (s.docs[doc].html == Some(f) || s.docs[doc].csv == Some(f))
  }

  predicate HeldByOwner(s: Sys, f: nat)
    requires f in s.files
  {
    s.files[f].owner in s.runs && f in Held(s.runs[s.files[f].owner])
  }

  /** Every stored file is on a row, held by the run that stored it, or recorded as leaked. */
  ghost predicate Accounted(s: Sys) {
    forall f :: f in s.files ==> Referenced(s, f) || HeldByOwner(s, f) || f in s.leaked
  }

  lemma ReferenceStays(s: Sys, e: Event, f: nat)
    requires Holds(s) && Referenced(s, f)
    ensures Referenced(Step(s, e), f)
  {
    var doc :| doc in s.docs && (s.docs[doc].html == Some(f) || s.docs[doc].csv == Some(f));
    assert DocHolds(s, doc);
    StepKeepsPair(s, e, doc);
  }

  /** A run that cleans up after its answer holds each of its two files, or reports it on the row. */
  lemma HandOverCleaning(s: Sys, r: nat, a: Submission, files: seq<nat>, o: Outcome, f: nat)
    requires f in s.files && s.files[f].owner == r && (f == a.html || f == a.csv) && OutcomeHolds(s, o)
    requires if o.Available? then files == Spare(a, o.html, o.csv) else files == [a.html, a.csv]
    ensures var after := SetRun(s, r, Cleaning(files, o)); Referenced(after, f) || HeldByOwner(after, f)
  {
    var after := SetRun(s, r, Cleaning(files, o));
    if o.Available? && (f == o.html || f == o.csv) {
      assert OnRow(s, o.doc, o.html, o.csv) && after.docs == s.docs;
    } else {
      assert files[0] == f || files[|files| - 1] == f;
    }
  }

  /** A file of an acknowledged call is cleaned up, or is on the row. */
  lemma HandOverAnswered(s: Sys, r: nat, a: Submission, f: nat)
    requires Holds(s) && r in s.runs && r in s.answers && f in s.files && s.files[f].owner == r
    requires s.runs[r] == Submitted(a) && (f == a.html || f == a.csv)
    ensures var after := Step(s, Acknowledge(r)); Referenced(after, f) || HeldByOwner(after, f)
  {
    assert RunHolds(s, r, s.runs[r]) && AnswerHolds(s, r);
    var Cleaning(files, o) := Answered(a, s.answers[r]);
    HandOverCleaning(s, r, a, files, o, f);
  }

  /** A file of a call whose answer was lost is cleaned up, on the row, or known to be left over. */
  lemma HandOverReadBack(s: Sys, r: nat, a: Submission, f: nat)
    requires Holds(s) && r in s.runs && f in s.files && s.files[f].owner == r
    requires s.runs[r] == Uncertain(a) && (f == a.html || f == a.csv)
    ensures var after := Step(s, ReadBack(r)); Referenced(after, f) || HeldByOwner(after, f) || f in after.leaked
  {
    assert RunHolds(s, r, s.runs[r]);
    if ReadBackPair(s.docs, a).Some? {
      var (html, csv) := ReadBackPair(s.docs, a).value;
      HandOverCleaning(s, r, a, Spare(a, html, csv), Available(a.doc, html, csv), f);
    }
  }

  predicate RunEvent(e: Event) {
    e.StoreHtml? || e.StoreCsv? || e.Submit? || e.Acknowledge? || e.LoseAnswer? || e.ReadBack? || e.Delete? || e.Crash?
  }

  /** A step moves the run it names and no other. */
  lemma StepMovesOneRun(s: Sys, e: Event, r: nat)
    requires r in s.runs && r < s.next
    ensures r in Step(s, e).runs
    ensures (RunEvent(e) && e.run == r) || Step(s, e).runs[r] == s.runs[r]
  {
    if RunEvent(e) && e.run != r {
      if e.StoreHtml? || e.StoreCsv? { StoreMovesOneRun(s, e, r); }
      else if e.Delete? || e.Crash? { EndMovesOneRun(s, e, r); }
      else { CallMovesOneRun(s, e, r); }
    } else if e.Start? {
      assert Step(s, e) == StartRun(s, e.doc);
    }
  }

  lemma StoreMovesOneRun(s: Sys, e: Event, r: nat)
    requires r in s.runs && (e.StoreHtml? || e.StoreCsv?)
    ensures r in Step(s, e).runs && (e.run != r ==> Step(s, e).runs[r] == s.runs[r])
  {
  }

  lemma CallMovesOneRun(s: Sys, e: Event, r: nat)
    requires r in s.runs && (e.Submit? || e.Acknowledge? || e.LoseAnswer? || e.ReadBack?)
    ensures r in Step(s, e).runs && (e.run != r ==> Step(s, e).runs[r] == s.runs[r])
  {
  }

  lemma EndMovesOneRun(s: Sys, e: Event, r: nat)
    requires r in s.runs && (e.Delete? || e.Crash?)
    ensures r in Step(s, e).runs && (e.run != r ==> Step(s, e).runs[r] == s.runs[r])
  {
  }

  /** No step rewrites a stored file or forgets a leak. */
  lemma StepKeepsFiles(s: Sys, e: Event, f: nat)
    requires f in s.files && f < s.next
    ensures f in Step(s, e).files ==> Step(s, e).files[f] == s.files[f]
    ensures s.leaked <= Step(s, e).leaked
  {
  }

  /** A file leaves a run's hands only onto a row, off storage, or into the leaks. */
  lemma HandOver(s: Sys, e: Event, f: nat)
    requires Holds(s) && f in s.files && HeldByOwner(s, f) && f in Step(s, e).files
    ensures Referenced(Step(s, e), f) || HeldByOwner(Step(s, e), f) || f in Step(s, e).leaked
  {
    var r := s.files[f].owner;
    StepMovesOneRun(s, e, r);
    StepKeepsFiles(s, e, f);
    if RunEvent(e) && e.run == r {
      if e.Acknowledge? {
        if s.runs[r].Submitted? && r in s.answers { HandOverAnswered(s, r, s.runs[r].call, f); }
      } else if e.ReadBack? {
        if s.runs[r].Uncertain? { HandOverReadBack(s, r, s.runs[r].call, f); }
      } else if e.Delete? {
        HandOverDeleted(s, r, e.ok, f);
      } else if e.StoreHtml? || e.StoreCsv? {
        HandOverStored(s, e, f);
      } else {
        HandOverCalled(s, e, f);
      }
    }
  }

  /** A second file is held beside the first; when it could not be stored the first is cleaned up. */
  lemma HandOverStored(s: Sys, e: Event, f: nat)
    requires FilesHold(s) && f in s.files && HeldByOwner(s, f)
    requires (e.StoreHtml? || e.StoreCsv?) && e.run == s.files[f].owner
    ensures f in Step(s, e).files && HeldByOwner(Step(s, e), f)
  {
    if e.StoreCsv? && s.runs[e.run].HtmlStored? && !e.ok { assert Step(s, e).runs[e.run].files[0] == f; }
  }

  lemma HandOverCalled(s: Sys, e: Event, f: nat)
    requires f in s.files && HeldByOwner(s, f)
    requires (e.Submit? || e.LoseAnswer? || e.Crash?) && e.run == s.files[f].owner
    ensures f in Step(s, e).files && (HeldByOwner(Step(s, e), f) || f in Step(s, e).leaked)
  {
  }

  lemma HandOverDeleted(s: Sys, r: nat, ok: bool, f: nat)
    requires f in s.files && s.files[f].owner == r && HeldByOwner(s, f) && f in Step(s, Delete(r, ok)).files
    ensures HeldByOwner(Step(s, Delete(r, ok)), f) || f in Step(s, Delete(r, ok)).leaked
  {
    if s.runs[r].Cleaning? {
      var files := s.runs[r].files;
      var i :| 0 <= i < |files| && files[i] == f;
      if i > 0 { assert files[1..][i - 1] == f; }
    }
  }

  lemma StepAccounts(s: Sys, e: Event)
    requires Holds(s) && Accounted(s)
    ensures Accounted(Step(s, e))
  {
    var after := Step(s, e);
    forall f | f in after.files
      ensures Referenced(after, f) || HeldByOwner(after, f) || f in after.leaked
    {
      if f in s.files {
        if Referenced(s, f) { ReferenceStays(s, e, f); }
        else if HeldByOwner(s, f) { HandOver(s, e, f); }
        else { StepKeepsFiles(s, e, f); }
      } else {
        NewFileIsHeld(s, e, f);
      }
    }
  }

  lemma NewFileIsHeld(s: Sys, e: Event, f: nat)
    requires f !in s.files && f in Step(s, e).files
    ensures HeldByOwner(Step(s, e), f)
  {
  }

  /** Leaks are recorded only at a crash, a failed deletion, or a readback that follows a lost answer. */
  lemma {:induction false} NoFaultNoLeak(events: seq<Event>)
    requires forall i :: 0 <= i < |events| ==> !FileFault(events[i])
    ensures Run(EMPTY, events).leaked == {}
    ensures forall r :: r in Run(EMPTY, events).runs ==> !Run(EMPTY, events).runs[r].Uncertain?
  {
    if events != [] {
      var e := events[|events| - 1];
      assert !FileFault(e);
      NoFaultNoLeak(events[..|events| - 1]);
    }
  }

  lemma {:induction false} RunAccounts(events: seq<Event>)
    ensures Holds(Run(EMPTY, events)) && Accounted(Run(EMPTY, events))
  {
    if events == [] {
      RunHoldsAll(events);
    } else {
      RunAccounts(events[..|events| - 1]);
      RunHoldsAll(events);
      StepAccounts(Run(EMPTY, events[..|events| - 1]), events[|events| - 1]);
    }
  }

  /**
   Without a crash, a lost answer or a failed deletion, once every render has ended the
   stored files are exactly the files on the rows.
   */
  lemma {:induction false} StorageIsExactlyReferenced(events: seq<Event>, f: nat)
    requires forall i :: 0 <= i < |events| ==> !FileFault(events[i])
    requires forall r :: r in Run(EMPTY, events).runs ==> Run(EMPTY, events).runs[r].Ended?
    ensures f in Run(EMPTY, events).files <==> Referenced(Run(EMPTY, events), f)
  {
    var s := Run(EMPTY, events);
    NoFaultNoLeak(events);
    RunAccounts(events);
    if Referenced(s, f) {
      var doc :| doc in s.docs && (s.docs[doc].html == Some(f) || s.docs[doc].csv == Some(f));
      ReferencedFilesExist(events, doc);
    }
  }
}
