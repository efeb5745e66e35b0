/**
 The render action as it runs, from the row it read to the files it leaves behind.
 Between its own steps nothing else moves; DocumentRender covers interleavings.
 */
module DocumentTables {
  import opened Wrappers
  import opened DocumentRender

  /** How the attachment call went: answered, or thrown before or after it committed. */
  datatype CallFate = CallAnswered | ThrewAfterCommit | ThrewBeforeCommit

  /** The row went from rendering to its pair: a daily close awaits its signature, any other kind is issued. */
  predicate AttachedNow(before: Doc, after: Doc) {
    && before.state.Rendering? && after.inputDigest == before.inputDigest && after.dailyClose == before.dailyClose
    && (after.state.AwaitingSignature? <==> before.dailyClose) && (after.state.Issued? <==> !before.dailyClose)
  }

  class RenderTables {
    var files: map<nat, string>
    var docs: map<string, Doc>
    var nextFile: nat

    constructor ()
      ensures Valid() && docs == map[] && files == map[]
    {
      files, docs, nextFile := map[], map[], 0;
    }

    /** Every file on a row is stored with the bytes the row records, and new ids are fresh. */
    ghost predicate Valid()
      reads this
    {
      && (forall f :: f in files ==> f < nextFile)
      && (forall doc :: doc in docs ==>
            && (docs[doc].html.Some? ==> HasBytes(docs[doc].html.value, docs[doc].htmlDigest))
            && (docs[doc].csv.Some? ==> HasBytes(docs[doc].csv.value, docs[doc].csvDigest)))
    }

    predicate HasBytes(f: nat, digest: Option<string>)
      reads this
    {
      f in files && digest == Some(files[f])
    }

    method Store(bytes: string) returns (f: nat)
      requires Valid()
      modifies this`files, this`nextFile
      ensures Valid() && f == old(nextFile) && files == old(files)[f := bytes] && nextFile == f + 1
    {
      f := nextFile;
      files, nextFile := files[f := bytes], nextFile + 1;
    }

    method AttachRenderedFile(a: Submission) returns (answer: AttachResult)
      modifies this`docs
      ensures (docs, answer) == Attach(old(docs), a)
    {
      if a.doc !in docs || docs[a.doc].inputDigest != a.inputDigest { return AttachRefused; }
      var row := docs[a.doc];
      if row.html.Some? && row.csv.Some? {
        if row.htmlDigest != Some(a.htmlBytes) || row.csvDigest != Some(a.csvBytes) { return AttachRefused; }
        return Replayed(row.html.value, row.csv.value);
      }
      if row.state != Rendering || row.html.Some? || row.csv.Some? { return AttachRefused; }
      docs := docs[a.doc := row.(
        html := Some(a.html), htmlDigest := Some(a.htmlBytes), csv := Some(a.csv), csvDigest := Some(a.csvBytes),
        state := if row.dailyClose then AwaitingSignature else Issued)];
      answer := Attached(a.html, a.csv);
    }

    ghost predicate OffRows(f: nat)
      reads this
    {
      forall doc :: doc in docs ==> docs[doc].html != Some(f) && docs[doc].csv != Some(f)
    }

    /** Deletes what it can of files that are on no row; a failed deletion is tolerated and the loop goes on. */
    method DeleteUnattachedFiles(ids: seq<nat>, failing: set<nat>)
      requires Valid() && forall i :: 0 <= i < |ids| ==> OffRows(ids[i])
      modifies this`files
      ensures Valid()
      ensures forall f :: f in files <==> f in old(files) && (f !in ids || f in failing)
      ensures forall f :: f in files ==> files[f] == old(files)[f]
    {
      for i := 0 to |ids|
        invariant Valid()
        invariant forall f :: f in files <==> f in old(files) && (f !in ids[..i] || f in failing)
        invariant forall f :: f in files ==> files[f] == old(files)[f]
      {
        assert OffRows(ids[i]);
        if ids[i] !in failing { files := files - {ids[i]}; }
      }
      assert ids[..|ids|] == ids;
    }

    /**
     Calls the attachment and resolves a thrown call by reading the row back; `None`
     when the throw stands. Afterwards the call's files are on its row, or on none.
     */
    method Resolve(call: Submission, fate: CallFate) returns (answer: Option<AttachResult>)
      requires Valid() && HasBytes(call.html, Some(call.htmlBytes)) && HasBytes(call.csv, Some(call.csvBytes))
      requires OffRows(call.html) && OffRows(call.csv)
      modifies this`docs
      ensures Valid()
      ensures docs == old(docs)
              || (call.doc in old(docs) && call.doc in docs && !FullyAttached(old(docs)[call.doc])
                  && docs == old(docs)[call.doc := docs[call.doc]] && OnTheRow(call.doc, call.html, call.csv)
                  && docs[call.doc].inputDigest == call.inputDigest
                  && docs[call.doc].htmlDigest == Some(call.htmlBytes) && docs[call.doc].csvDigest == Some(call.csvBytes)
                  && AttachedNow(old(docs)[call.doc], docs[call.doc]))
      ensures answer.Some? && answer.value.AttachRefused? ==> docs == old(docs)
      ensures answer.Some? && !answer.value.AttachRefused? ==> OnTheRow(call.doc, answer.value.html, answer.value.csv)
      ensures fate == CallAnswered ==> answer == Some(Attach(old(docs), call).1)
    {
      var first := AttachRefused;
      if fate != ThrewBeforeCommit { first := AttachRenderedFile(call); }
      answer := Some(first);
      if fate != CallAnswered {
        var recorded := ReadBackPair(docs, call);
        answer := if recorded.None? then None else Some(Replayed(recorded.value.0, recorded.value.1));
      }
    }

    predicate OnTheRow(doc: string, html: nat, csv: nat)
      reads this
    {
      doc in docs && docs[doc].html == Some(html) && docs[doc].csv == Some(csv)
    }

    /**
     Renders one document from the row it read, which may be stale. `None` for bytes is
     a failed store. Whatever happens, every row keeps its files and no earlier file is
     lost; an available pair is stored and on the row; a fresh row whose call is answered gets
     this run's bytes; and when no answer was lost and no deletion failed, every file
     this run leaves behind is on the row.
     */
    method RenderAndAttach(doc: string, snapshot: Doc, html: Option<string>, csv: Option<string>,
                           fate: CallFate, failing: set<nat>) returns (outcome: Outcome)
      requires Valid()
      requires FullyAttached(snapshot) ==> doc in docs && SameFiles(snapshot, docs[doc])
      modifies this
      ensures Valid()
      ensures forall f :: f in old(files) ==> f in files && files[f] == old(files)[f]
      ensures docs == old(docs)
              || (doc in old(docs) && doc in docs && !FullyAttached(old(docs)[doc])
                  && docs == old(docs)[doc := docs[doc]] && FullyAttached(docs[doc])
                  && docs[doc].inputDigest == snapshot.inputDigest && docs[doc].htmlDigest == html && docs[doc].csvDigest == csv
                  && AttachedNow(old(docs)[doc], docs[doc]))
      ensures outcome.Available? ==>
                OnTheRow(doc, outcome.html, outcome.csv) && outcome.html in files && outcome.csv in files
      ensures fate == CallAnswered && html.Some? && csv.Some? && doc in old(docs) && old(docs)[doc] == snapshot
              && snapshot.state.Rendering? && snapshot.html.None? && snapshot.csv.None?
              ==> outcome.Available? && docs[doc].htmlDigest == html && docs[doc].csvDigest == csv
      ensures !FullyAttached(snapshot) && (!snapshot.state.Rendering? || html.None? || csv.None?) ==>
                outcome == Threw && docs == old(docs)
      ensures FullyAttached(snapshot) ==>
                outcome.Available? && outcome.doc == doc && Some(outcome.html) == snapshot.html && Some(outcome.csv) == snapshot.csv
      ensures fate == CallAnswered && failing == {} ==>
                forall f :: f in files && f !in old(files) ==> !OffRows(f)
    {
      if FullyAttached(snapshot) { return Available(doc, snapshot.html.value, snapshot.csv.value); }
      if snapshot.state != Rendering || html.None? { return Threw; }
      var htmlId := Store(html.value);
      if csv.None? {
        DeleteUnattachedFiles([htmlId], failing);
        return Threw;
      }
      var csvId := Store(csv.value);
      var call := Submission(doc, snapshot.inputDigest, htmlId, html.value, csvId, csv.value);
      var answer := Resolve(call, fate);
      outcome := Clean(call, answer, failing);
    }

    /** Deletes the files of a resolved call that are not the canonical pair. */
    method Clean(call: Submission, answer: Option<AttachResult>, failing: set<nat>) returns (outcome: Outcome)
      requires Valid()
      requires (OffRows(call.html) && OffRows(call.csv)) || OnTheRow(call.doc, call.html, call.csv)
      requires answer.Some? && answer.value.AttachRefused? ==> OffRows(call.html) && OffRows(call.csv)
      requires answer.Some? && !answer.value.AttachRefused? ==> OnTheRow(call.doc, answer.value.html, answer.value.csv)
      modifies this`files
      ensures Valid()
      ensures forall f :: f in files ==> f in old(files)
      ensures forall f :: f in old(files) && f != call.html && f != call.csv ==> f in files
      ensures forall f :: f in files ==> files[f] == old(files)[f]
      ensures outcome == if answer.None? || answer.value.AttachRefused? then Threw
                         else Available(call.doc, answer.value.html, answer.value.csv)
      ensures answer.Some? && failing == {} ==>
                (call.html in files ==> !OffRows(call.html)) && (call.csv in files ==> !OffRows(call.csv))
    {
      if answer.None? { return Threw; }
      if answer.value.AttachRefused? {
        DeleteUnattachedFiles([call.html, call.csv], failing);
        return Threw;
      }
      var spare := Spare(call, answer.value.html, answer.value.csv);
      DeleteUnattachedFiles(spare, failing);
      var html, csv := answer.value.html, answer.value.csv;
      assert call.html in spare || call.html == html || call.html == csv by {
        if call.html != html && call.html != csv { assert spare[0] == call.html; }
      }
      assert call.csv in spare || call.csv == html || call.csv == csv by {
        if call.csv != html && call.csv != csv { assert spare[|spare| - 1] == call.csv; }
      }
      assert !OffRows(html) && !OffRows(csv) by { assert OnTheRow(call.doc, html, csv); }
      outcome := Available(call.doc, answer.value.html, answer.value.csv);
    }
  }
}
