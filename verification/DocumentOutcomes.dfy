/** The attachment mutation and its read-back column by column, and the states that attachments leave over any run. */
module DocumentOutcomes {
  import opened Wrappers
  import opened DocumentRender

  // ---- the mutation ----

  /** Exactly when a submission attaches, replays or is refused, in terms of the row it finds. */
  lemma AttachIff(docs: map<string, Doc>, a: Submission)
    ensures var answer := Attach(docs, a).1;
            var found := a.doc in docs && docs[a.doc].inputDigest == a.inputDigest;
            && (answer.Attached? <==> && found && docs[a.doc].state.Rendering?
                                      && docs[a.doc].html.None? && docs[a.doc].csv.None?)
            && (answer.Replayed? <==> && found && docs[a.doc].html.Some? && docs[a.doc].csv.Some?
                                      && docs[a.doc].htmlDigest == Some(a.htmlBytes) && docs[a.doc].csvDigest == Some(a.csvBytes))
            && (answer.Attached? ==> answer.html == a.html && answer.csv == a.csv)
            && (answer.Replayed? ==> Some(answer.html) == docs[a.doc].html && Some(answer.csv) == docs[a.doc].csv)
            && (!answer.Attached? ==> Attach(docs, a).0 == docs)
  {
  }

  /** An attachment writes the pair, its digests and the state: a daily close awaits its signature, any other kind is issued. */
  lemma AttachWrites(docs: map<string, Doc>, a: Submission)
    requires Attach(docs, a).1.Attached?
    ensures var after := Attach(docs, a).0;
            && a.doc in docs && a.doc in after && after == docs[a.doc := after[a.doc]]
            && var d, e := docs[a.doc], after[a.doc];
            && e.html == Some(a.html) && e.csv == Some(a.csv)
            && e.htmlDigest == Some(a.htmlBytes) && e.csvDigest == Some(a.csvBytes)
            && e.inputDigest == d.inputDigest && e.dailyClose == d.dailyClose
            && (d.dailyClose ==> e.state.AwaitingSignature?) && (!d.dailyClose ==> e.state.Issued?)
  {
  }

  /** A thrown call counts as attached exactly if the row, in a state the reader sees, shows a pair for the same input and bytes. */
  lemma ReadBackIff(docs: map<string, Doc>, a: Submission)
    ensures var pair := ReadBackPair(docs, a);
            && (pair.Some? <==> && a.doc in docs && !docs[a.doc].state.OtherState? && docs[a.doc].inputDigest == a.inputDigest
                                && docs[a.doc].html.Some? && docs[a.doc].csv.Some?
                                && docs[a.doc].htmlDigest == Some(a.htmlBytes) && docs[a.doc].csvDigest == Some(a.csvBytes))
            && (pair.Some? ==> docs[a.doc].html == Some(pair.value.0) && docs[a.doc].csv == Some(pair.value.1))
  {
  }

  /** The spare files are exactly those of the submission that are not in the canonical pair, each once. */
  lemma SpareIff(a: Submission, html: nat, csv: nat, f: nat)
    requires a.html != a.csv
    ensures f in Spare(a, html, csv) <==> (f == a.html || f == a.csv) && f != html && f != csv
    ensures multiset(Spare(a, html, csv))[f] <= 1
  {
  }

  // ---- one render, step by step ----

  /** A render starts from the row it reads: with a pair it is done, outside `rendering` it throws, otherwise it goes on with that row. */
  lemma StartIff(s: Sys, doc: string)
    requires doc in s.docs
    ensures var after := Step(s, Start(doc));
            && after.next == s.next + 1 && s.next in after.runs && after.docs == s.docs && after.files == s.files
            && var d, p := s.docs[doc], after.runs[s.next];
            && (d.html.Some? && d.csv.Some? ==> p == Ended(Available(doc, d.html.value, d.csv.value)))
            && (!(d.html.Some? && d.csv.Some?) && !d.state.Rendering? ==> p == Ended(Threw))
            && (!(d.html.Some? && d.csv.Some?) && d.state.Rendering? ==> p == Snapshot(doc, d))
  {
  }

  /** What is submitted is the row's input as it was read, with the two files stored for it and their bytes. */
  lemma StoredAndSubmitted(s: Sys, run: nat, html: string, csv: string)
    requires run in s.runs && s.runs[run].Snapshot?
    ensures var stored := Step(Step(s, StoreHtml(run, html, true)), StoreCsv(run, csv, true));
            var after := Step(stored, Submit(run));
            && run in after.calls && after.runs[run] == Submitted(after.calls[run])
            && var a := after.calls[run];
            && a.doc == s.runs[run].doc && a.inputDigest == s.runs[run].row.inputDigest
            && a.html != a.csv && a.htmlBytes == html && a.csvBytes == csv
            && a.html in after.files && after.files[a.html].bytes == html
            && a.csv in after.files && after.files[a.csv].bytes == csv
            && after.docs == s.docs && after.next == s.next + 2
  {
  }

  /** A failed store throws: before anything was stored at once, afterwards with the stored file to clean up. */
  lemma FailedStores(s: Sys, run: nat, html: string, csv: string)
    requires run in s.runs && s.runs[run].Snapshot?
    ensures Step(s, StoreHtml(run, html, false)) == s.(runs := s.runs[run := Ended(Threw)])
    ensures var stored := Step(s, StoreHtml(run, html, true));
            Step(stored, StoreCsv(run, csv, false)) == stored.(runs := stored.runs[run := Cleaning([s.next], Threw)])
  {
  }

  /** An answered call cleans up both files if it was refused, and otherwise the spare ones before it reports the canonical pair. */
  lemma AnsweredCleansUp(s: Sys, run: nat)
    requires run in s.runs && s.runs[run].Submitted? && run in s.answers
    ensures var a, p := s.runs[run].call, Step(s, Acknowledge(run)).runs[run];
            match s.answers[run]
            case AttachRefused => p == Cleaning([a.html, a.csv], Threw)
            case Attached(html, csv) => p == Cleaning(Spare(a, html, csv), Available(a.doc, html, csv))
            case Replayed(html, csv) => p == Cleaning(Spare(a, html, csv), Available(a.doc, html, csv))
  {
  }

  /** A call whose answer was lost reports the pair its row shows, or throws and leaves both files alone. */
  lemma ReadBackCleansUp(s: Sys, run: nat)
    requires run in s.runs && s.runs[run].Uncertain?
    ensures var a, after := s.runs[run].call, Step(s, ReadBack(run));
            && after.docs == s.docs && after.files == s.files
            && match ReadBackPair(s.docs, a)
               case None => after.runs[run] == Ended(Threw)
               case Some((html, csv)) => after.runs[run] == Cleaning(Spare(a, html, csv), Available(a.doc, html, csv))
  {
  }

  // ---- states over any run ----

  /** No other writer changed the document after its attachment. */
  predicate StateKept(events: seq<Event>, doc: string) {
    events == []
    || (&& StateKept(events[..|events| - 1], doc)
        && var s, e := Run(EMPTY, events[..|events| - 1]), events[|events| - 1];
           !(e.ChangeDoc? && e.doc == doc && DocAttached(s, doc)))
  }

  predicate AttachedState(s: Sys, doc: string) {
    DocAttached(s, doc) ==>
      (s.docs[doc].state.AwaitingSignature? <==> s.docs[doc].dailyClose) && (s.docs[doc].state.Issued? <==> !s.docs[doc].dailyClose)
  }

  /** An event other than a change by another writer leaves a row alone, but for its attachment. */
  lemma StepMovesDoc(s: Sys, e: Event, doc: string)
    requires doc in s.docs && !e.ChangeDoc?
    ensures doc in Step(s, e).docs
    ensures var d, after := s.docs[doc], Step(s, e).docs[doc];
            && after.dailyClose == d.dailyClose
            && (after == d
                || (&& !FullyAttached(d) && FullyAttached(after)
                    && (after.state.AwaitingSignature? <==> d.dailyClose) && (after.state.Issued? <==> !d.dailyClose)))
  {
    if e.Commit? && e.run in s.calls && e.run !in s.answers {
      AttachIff(s.docs, s.calls[e.run]);
      if Attach(s.docs, s.calls[e.run]).1.Attached? { AttachWrites(s.docs, s.calls[e.run]); }
    }
  }

  lemma NewDocIsUnattached(s: Sys, e: Event, doc: string)
    requires doc !in s.docs && doc in Step(s, e).docs
    ensures e.CreateDoc? && e.doc == doc && !FullyAttached(Step(s, e).docs[doc])
    ensures Step(s, e).docs[doc].state == e.state && Step(s, e).docs[doc].dailyClose == e.dailyClose
  {
  }

  /**
   Over any run in which no other writer changed the row since, a row holding its pair awaits
   its signature if it is a daily close, and is issued otherwise.
   */
  lemma {:induction false} AttachedIsSignedOrIssued(events: seq<Event>, doc: string)
    requires StateKept(events, doc) && DocAttached(Run(EMPTY, events), doc)
    ensures var d := Run(EMPTY, events).docs[doc];
            (d.state.AwaitingSignature? <==> d.dailyClose) && (d.state.Issued? <==> !d.dailyClose)
  {
    if events != [] {
      var s, e := Run(EMPTY, events[..|events| - 1]), events[|events| - 1];
      if doc !in s.docs { NewDocIsUnattached(s, e, doc); }
      else {
        if !e.ChangeDoc? { StepMovesDoc(s, e, doc); }
        if DocAttached(s, doc) { AttachedIsSignedOrIssued(events[..|events| - 1], doc); }
      }
    }
  }

  /** No other writer issued the document. */
  predicate NotIssuedByOthers(events: seq<Event>, doc: string) {
    forall k :: 0 <= k < |events| && (events[k].CreateDoc? || events[k].ChangeDoc?) && events[k].doc == doc ==>
                  !events[k].state.Issued?
  }

  /** Renders alone never issue a daily close: over any run it is issued only if another writer issued it. */
  lemma {:induction false} RendersIssueNoDailyClose(events: seq<Event>, doc: string)
    requires NotIssuedByOthers(events, doc) && doc in Run(EMPTY, events).docs && Run(EMPTY, events).docs[doc].dailyClose
    ensures !Run(EMPTY, events).docs[doc].state.Issued?
  {
    if events != [] {
      var before, e := events[..|events| - 1], events[|events| - 1];
      assert forall k :: 0 <= k < |before| ==> before[k] == events[k];
      var s := Run(EMPTY, before);
      if doc !in s.docs {
        NewDocIsUnattached(s, e, doc);
      } else {
        if !e.ChangeDoc? { StepMovesDoc(s, e, doc); }
        RendersIssueNoDailyClose(before, doc);
      }
    }
  }
}
