/**
 The CSV printer of financial documents, with a reader for section 2 of RFC 4180
 written beside it. Reading what was printed returns the guarded cells exactly,
 and no guarded cell can start a spreadsheet formula.
 */
module Csv {
  import opened Wrappers

  datatype DisplayRow = DisplayRow(field: string, value: string)

  const CRLF := "\r\n"
  const HEADER := "field,value"

  // ---- printing ----

  /** The first characters a spreadsheet would treat as a formula or a separator. */
  predicate IsFormulaStart(c: char) {
    c == '=' || c == '+' || c == '-' || c == '@' || c == '\t' || c == '\r'
  }

  predicate StartsFormula(value: string) { value != "" && IsFormulaStart(value[0]) }

  function Guard(value: string): string { if StartsFormula(value) then "'" + value else value }

  /** `replaceAll('"', '""')`. */
  function DoubleQuotes(value: string): string {
    if value == "" then ""
    else (if value[0] == '"' then "\"\"" else [value[0]]) + DoubleQuotes(value[1..])
  }

  function SafeCsvCell(value: string): string { "\"" + DoubleQuotes(Guard(value)) + "\"" }

  function CsvLine(row: DisplayRow): string { SafeCsvCell(row.field) + "," + SafeCsvCell(row.value) }

  function Lines(rows: seq<DisplayRow>): seq<string> {
    if rows == [] then [] else [CsvLine(rows[0])] + Lines(rows[1..])
  }

  function Join(lines: seq<string>, separator: string): string {
    if lines == [] then ""
    else if |lines| == 1 then lines[0]
    else lines[0] + separator + Join(lines[1..], separator)
  }

  function RenderCsv(rows: seq<DisplayRow>): string { Join([HEADER] + Lines(rows), CRLF) + CRLF }

  // ---- reading ----

  /** Reads up to the closing quote; a doubled quote stands for one. */
  function ReadQuoted(s: string): Option<(string, string)> {
    if s == "" then None
    else if s[0] == '"' then
      if |s| > 1 && s[1] == '"' then
        var rest := ReadQuoted(s[2..]);
        if rest.None? then None else Some(("\"" + rest.value.0, rest.value.1))
      else Some(("", s[1..]))
    else
      var rest := ReadQuoted(s[1..]);
      if rest.None? then None else Some(([s[0]] + rest.value.0, rest.value.1))
  }

  predicate IsTextData(c: char) { c != '"' && c != ',' && c != '\r' && c != '\n' }

  function ReadBare(s: string): (string, string) {
    if s == "" || !IsTextData(s[0]) then ("", s)
    else var (text, rest) := ReadBare(s[1..]); ([s[0]] + text, rest)
  }

  function ReadField(s: string): Option<(string, string)> {
    if s != "" && s[0] == '"' then ReadQuoted(s[1..]) else Some(ReadBare(s))
  }

  lemma QuotedShrinks(s: string)
    ensures ReadQuoted(s).Some? ==> |ReadQuoted(s).value.1| < |s|
  {
  }

  lemma BareShrinks(s: string)
    ensures |ReadBare(s).1| <= |s|
  {
  }

  function ReadRecord(s: string): Option<(seq<string>, string)>
    decreases |s|
  {
    QuotedShrinks(if s == "" then "" else s[1..]);
    BareShrinks(s);
    var cell := ReadField(s);
    if cell.None? then None
    else
      var (text, rest) := cell.value;
      if rest != "" && rest[0] == ',' then
        var more := ReadRecord(rest[1..]);
        if more.None? then None else Some(([text] + more.value.0, more.value.1))
      else Some(([text], rest))
  }

  lemma {:induction false} RecordShrinks(s: string)
    ensures ReadRecord(s).Some? ==> |ReadRecord(s).value.1| <= |s|
    decreases |s|
  {
    QuotedShrinks(if s == "" then "" else s[1..]);
    BareShrinks(s);
    var cell := ReadField(s);
    if cell.Some? && cell.value.1 != "" && cell.value.1[0] == ',' { RecordShrinks(cell.value.1[1..]); }
  }

  /** Records separated by CRLF; a CRLF after the last record is optional. */
  function ReadCsv(s: string): Option<seq<seq<string>>>
    decreases |s|
  {
    if s == "" then Some([])
    else
      RecordShrinks(s);
      var record := ReadRecord(s);
      if record.None? then None
      else
        var (fields, rest) := record.value;
        if rest == "" then Some([fields])
        else if CRLF <= rest then
          var more := ReadCsv(rest[2..]);
          if more.None? then None else Some([fields] + more.value)
        else None
  }

  // ---- printing, then reading ----

  lemma {:induction false} ReadsQuoted(value: string, rest: string)
    requires rest == "" || rest[0] != '"'
    ensures ReadQuoted(DoubleQuotes(value) + "\"" + rest) == Some((value, rest))
  {
    var s := DoubleQuotes(value) + "\"" + rest;
    if value == "" {
      assert s == "\"" + rest && s[1..] == rest;
    } else {
      ReadsQuoted(value[1..], rest);
      var tail := DoubleQuotes(value[1..]) + "\"" + rest;
      if value[0] == '"' {
        assert s == "\"\"" + tail && s[2..] == tail;
        assert "\"" + value[1..] == value;
      } else {
        assert s == [value[0]] + tail && s[1..] == tail;
        assert [value[0]] + value[1..] == value;
      }
    }
  }

  lemma ReadsCell(value: string, rest: string)
    requires rest == "" || rest[0] != '"'
    ensures ReadField(SafeCsvCell(value) + rest) == Some((Guard(value), rest))
  {
    var s := SafeCsvCell(value) + rest;
    assert s[1..] == DoubleQuotes(Guard(value)) + "\"" + rest;
    ReadsQuoted(Guard(value), rest);
  }

  function GuardedRecord(row: DisplayRow): seq<string> { [Guard(row.field), Guard(row.value)] }

  lemma ReadsLine(row: DisplayRow, rest: string)
    requires rest == "" || (rest[0] != '"' && rest[0] != ',')
    ensures ReadRecord(CsvLine(row) + rest) == Some((GuardedRecord(row), rest))
  {
    var tail := SafeCsvCell(row.value) + rest;
    ReadsCell(row.value, rest);
    assert ReadRecord(tail) == Some(([Guard(row.value)], rest));
    ReadsCell(row.field, "," + tail);
    assert CsvLine(row) + rest == SafeCsvCell(row.field) + ("," + tail);
    assert ("," + tail)[1..] == tail;
    assert [Guard(row.field)] + [Guard(row.value)] == GuardedRecord(row);
  }

  lemma ReadsHeader(rest: string)
    requires CRLF <= rest
    ensures ReadRecord(HEADER + rest) == Some((["field", "value"], rest))
  {
    assert ReadBare("field" + ("," + "value" + rest)) == ("field", "," + "value" + rest) by {
      BareReads("field", "," + "value" + rest);
    }
    BareReads("value", rest);
    assert HEADER + rest == "field" + ("," + "value" + rest);
    assert ("," + "value" + rest)[1..] == "value" + rest;
    assert ReadRecord("value" + rest) == Some((["value"], rest));
    assert ["field"] + ["value"] == ["field", "value"];
  }

  lemma {:induction false} BareReads(text: string, rest: string)
    requires forall i :: 0 <= i < |text| ==> IsTextData(text[i])
    requires rest != "" && !IsTextData(rest[0])
    ensures ReadBare(text + rest) == (text, rest)
  {
    if text == "" {
      assert text + rest == rest;
    } else {
      assert (text + rest)[1..] == text[1..] + rest;
      BareReads(text[1..], rest);
      assert [text[0]] + text[1..] == text;
    }
  }

  function GuardedRecords(rows: seq<DisplayRow>): seq<seq<string>> {
    seq(|rows|, i requires 0 <= i < |rows| => GuardedRecord(rows[i]))
  }

  /** One record, its line break, and then the rest of the document. */
  lemma ReadsThen(s: string, fields: seq<string>, tail: string, more: seq<seq<string>>)
    requires s != "" && ReadRecord(s) == Some((fields, CRLF + tail)) && ReadCsv(tail) == Some(more)
    ensures ReadCsv(s) == Some([fields] + more)
  {
    assert CRLF <= CRLF + tail && (CRLF + tail)[2..] == tail;
    RecordShrinks(s);
  }

  /** Every line with its line break. */
  function Body(rows: seq<DisplayRow>): string {
    if rows == [] then "" else CsvLine(rows[0]) + (CRLF + Body(rows[1..]))
  }

  lemma {:induction false} BodyIsJoined(rows: seq<DisplayRow>)
    ensures rows != [] ==> Join(Lines(rows), CRLF) + CRLF == Body(rows)
  {
    if rows != [] {
      BodyIsJoined(rows[1..]);
      var line, rest := CsvLine(rows[0]), Lines(rows[1..]);
      assert Lines(rows) == [line] + rest && ([line] + rest)[1..] == rest;
      if rows[1..] != [] {
        assert rest == [CsvLine(rows[1])] + Lines(rows[1..][1..]);
        assert Join(Lines(rows), CRLF) == line + CRLF + Join(rest, CRLF);
        Associative(line + CRLF, Join(rest, CRLF), CRLF);
        Associative(line, CRLF, Join(rest, CRLF) + CRLF);
      }
    }
  }

  lemma Associative(a: string, b: string, c: string)
    ensures (a + b) + c == a + (b + c)
  {
  }

  lemma GuardedCons(rows: seq<DisplayRow>)
    requires rows != []
    ensures GuardedRecords(rows) == [GuardedRecord(rows[0])] + GuardedRecords(rows[1..])
  {
  }

  lemma {:induction false} ReadsBody(rows: seq<DisplayRow>)
    ensures ReadCsv(Body(rows)) == Some(GuardedRecords(rows))
  {
    if rows == [] {
      assert GuardedRecords(rows) == [];
    } else {
      ReadsBody(rows[1..]);
      ReadsLine(rows[0], CRLF + Body(rows[1..]));
      ReadsThen(Body(rows), GuardedRecord(rows[0]), Body(rows[1..]), GuardedRecords(rows[1..]));
      GuardedCons(rows);
    }
  }

  lemma DocumentShape(rows: seq<DisplayRow>)
    ensures RenderCsv(rows) == HEADER + (CRLF + Body(rows))
  {
    BodyIsJoined(rows);
    assert ([HEADER] + Lines(rows))[1..] == Lines(rows);
    if rows == [] {
      assert [HEADER] + Lines(rows) == [HEADER];
      assert CRLF + "" == CRLF;
    } else {
      assert |Lines(rows)| > 0;
      assert Join([HEADER] + Lines(rows), CRLF) == HEADER + CRLF + Join(Lines(rows), CRLF);
      Associative(HEADER + CRLF, Join(Lines(rows), CRLF), CRLF);
      Associative(HEADER, CRLF, Body(rows));
    }
  }

  /** Reading a printed document returns the header and exactly the guarded cells, for any cell text. */
  lemma CsvRoundTrip(rows: seq<DisplayRow>)
    ensures ReadCsv(RenderCsv(rows)) == Some([["field", "value"]] + GuardedRecords(rows))
  {
    DocumentShape(rows);
    ReadsBody(rows);
    ReadsHeader(CRLF + Body(rows));
    ReadsThen(HEADER + (CRLF + Body(rows)), ["field", "value"], Body(rows), GuardedRecords(rows));
  }

  /** No cell read back from a printed document starts a formula. */
  lemma NoFormulaIsRead(rows: seq<DisplayRow>, i: nat, j: nat)
    requires ReadCsv(RenderCsv(rows)).Some?
    requires i < |ReadCsv(RenderCsv(rows)).value| && j < |ReadCsv(RenderCsv(rows)).value[i]|
    ensures !StartsFormula(ReadCsv(RenderCsv(rows)).value[i][j])
  {
    CsvRoundTrip(rows);
  }

  /** Two cells print the same exactly when they are equal, or one is the other's guarded form. */
  lemma GuardCollides(a: string, b: string)
    ensures SafeCsvCell(a) == SafeCsvCell(b)
            <==> a == b || (StartsFormula(a) && b == "'" + a) || (StartsFormula(b) && a == "'" + b)
  {
    if SafeCsvCell(a) == SafeCsvCell(b) {
      ReadsCell(a, "");
      ReadsCell(b, "");
      assert SafeCsvCell(a) + "" == SafeCsvCell(b) + "";
      if StartsFormula(a) && StartsFormula(b) {
        assert ("'" + a)[1..] == ("'" + b)[1..];
        assert ("'" + a)[1..] == a && ("'" + b)[1..] == b;
      }
    }
  }

  /** A printed document determines its guarded cells. */
  lemma PrintDetermines(a: seq<DisplayRow>, b: seq<DisplayRow>)
    ensures RenderCsv(a) == RenderCsv(b) <==> GuardedRecords(a) == GuardedRecords(b)
  {
    CsvRoundTrip(a);
    CsvRoundTrip(b);
    if RenderCsv(a) == RenderCsv(b) {
      assert ([["field", "value"]] + GuardedRecords(a))[1..] == GuardedRecords(a);
      assert ([["field", "value"]] + GuardedRecords(b))[1..] == GuardedRecords(b);
    } else if GuardedRecords(a) == GuardedRecords(b) {
      SameLines(a, b);
    }
  }

  lemma {:induction false} SameLines(a: seq<DisplayRow>, b: seq<DisplayRow>)
    requires GuardedRecords(a) == GuardedRecords(b)
    ensures Lines(a) == Lines(b)
  {
    assert |a| == |GuardedRecords(a)| == |GuardedRecords(b)| == |b|;
    if a != [] {
      assert GuardedRecords(a)[0] == GuardedRecords(b)[0];
      assert GuardedRecords(a[1..]) == GuardedRecords(a)[1..] && GuardedRecords(b[1..]) == GuardedRecords(b)[1..];
      assert GuardedRecord(a[0])[0] == GuardedRecord(b[0])[0] && GuardedRecord(a[0])[1] == GuardedRecord(b[0])[1];
      SameLines(a[1..], b[1..]);
    }
  }

  /** The original cells are recovered exactly when none of them needed guarding. */
  lemma RecoversOriginalIff(rows: seq<DisplayRow>)
    ensures ReadCsv(RenderCsv(rows))
            == Some([["field", "value"]] + seq(|rows|, i requires 0 <= i < |rows| => [rows[i].field, rows[i].value]))
            <==> forall i :: 0 <= i < |rows| ==> !StartsFormula(rows[i].field) && !StartsFormula(rows[i].value)
  {
    CsvRoundTrip(rows);
    var raw := seq(|rows|, i requires 0 <= i < |rows| => [rows[i].field, rows[i].value]);
    var header := [["field", "value"]];
    if header + GuardedRecords(rows) == header + raw {
      assert (header + GuardedRecords(rows))[1..] == GuardedRecords(rows) && (header + raw)[1..] == raw;
      forall i | 0 <= i < |rows|
        ensures !StartsFormula(rows[i].field) && !StartsFormula(rows[i].value)
      {
        assert GuardedRecords(rows)[i] == raw[i];
        assert GuardedRecord(rows[i])[0] == rows[i].field && GuardedRecord(rows[i])[1] == rows[i].value;
        assert |Guard(rows[i].field)| == |rows[i].field| && |Guard(rows[i].value)| == |rows[i].value|;
      }
    }
    if forall i :: 0 <= i < |rows| ==> !StartsFormula(rows[i].field) && !StartsFormula(rows[i].value) {
      assert GuardedRecords(rows) == raw;
    }
  }
}
