/** The patient list of the admin panel (src/components/AdminPanel.tsx): the
    search filter and the content of the CSV export. Date formatting is a
    parameter; the download itself is outside the model. */
module AdminPanel {
  import opened Wrappers
  import opened Strings

  /** A row of the `patients` table, as far as the panel uses it. */
  datatype PanelPatient = PanelPatient(
    name: string,
    gender: string,
    dateOfBirth: string,
    createdAt: string,
    submittedBy: Option<string>,
    medicines: seq<string>,
    medicalConditions: seq<string>,
    previousSurgeries: seq<string>,
    allergies: seq<string>)

  // ---- Search ----

  /** The filter's test: the lower-cased name, or the lower-cased submitter
      when there is one, contains the lower-cased term. */
  predicate Matches(p: PanelPatient, searchTerm: string) {
    Contains(Lower(p.name), Lower(searchTerm))
    || (p.submittedBy.Some? && Contains(Lower(p.submittedBy.value), Lower(searchTerm)))
  }

  /** `patients.filter(...)`. */
  function FilterPatients(patients: seq<PanelPatient>, searchTerm: string): (r: seq<PanelPatient>)
    ensures |r| <= |patients|
    ensures forall p :: p in r <==> p in patients && Matches(p, searchTerm)
  {
    if patients == [] then []
    else
      var rest := FilterPatients(patients[1..], searchTerm);
      assert forall p :: p in patients <==> p == patients[0] || p in patients[1..];
      if Matches(patients[0], searchTerm) then [patients[0]] + rest else rest
  }

  /** `a` is `b` with some elements left out, in the same order. */
  predicate IsSubsequence<T(==)>(a: seq<T>, b: seq<T>)
    decreases |b|
  {
    if a == [] then true
    else if b == [] then false
    else (a[0] == b[0] && IsSubsequence(a[1..], b[1..])) || IsSubsequence(a, b[1..])
  }

  /** The filtered list keeps the panel's order. */
  lemma {:induction false} FilterIsSubsequence(patients: seq<PanelPatient>, searchTerm: string)
    ensures IsSubsequence(FilterPatients(patients, searchTerm), patients)
  {
    if patients != [] {
      FilterIsSubsequence(patients[1..], searchTerm);
      var rest := FilterPatients(patients[1..], searchTerm);
      if Matches(patients[0], searchTerm) {
        assert ([patients[0]] + rest)[1..] == rest;
      }
    }
  }

  /** The filter works patient by patient: it keeps the panel's order and
      keeps a repeated record as often as it occurs. */
  lemma {:induction false} FilterAppend(a: seq<PanelPatient>, b: seq<PanelPatient>, searchTerm: string)
    ensures FilterPatients(a + b, searchTerm) == FilterPatients(a, searchTerm) + FilterPatients(b, searchTerm)
  {
    if a == [] {
      assert a + b == b;
    } else {
      assert (a + b)[0] == a[0];
      assert (a + b)[1..] == a[1..] + b;
      FilterAppend(a[1..], b, searchTerm);
    }
  }

  /** One patient is kept exactly when it matches. */
  lemma FilterSingle(p: PanelPatient, searchTerm: string)
    ensures FilterPatients([p], searchTerm) == if Matches(p, searchTerm) then [p] else []
  {
    assert [p][1..] == [];
  }

  /** A patient is kept exactly when the term occurs in the lower-cased
      name, or in the lower-cased submitter that is present. */
  lemma MatchesIff(p: PanelPatient, searchTerm: string)
    ensures Matches(p, searchTerm) <==>
      (exists i :: OccursAt(Lower(p.name), Lower(searchTerm), i))
      || (p.submittedBy.Some? && exists i :: OccursAt(Lower(p.submittedBy.value), Lower(searchTerm), i))
  {
    ContainsIff(Lower(p.name), Lower(searchTerm));
    if p.submittedBy.Some? {
      ContainsIff(Lower(p.submittedBy.value), Lower(searchTerm));
    }
  }

  /** An empty search keeps every patient. */
  lemma {:induction false} EmptySearchKeepsAll(patients: seq<PanelPatient>)
    ensures FilterPatients(patients, "") == patients
  {
    if patients != [] {
      ContainsEmpty(Lower(patients[0].name));
      EmptySearchKeepsAll(patients[1..]);
      assert [patients[0]] + patients[1..] == patients;
    }
  }

  // ---- CSV export ----

  /** The nine column titles. */
  const Headers: seq<string> := [
    "Name", "Gender", "Date of Birth", "Submitted By", "Submission Date",
    "Medicines", "Medical Conditions", "Previous Surgeries", "Allergies"]

  /** The nine cells of a patient; `formatDate` renders `created_at`. */
  function Cells(p: PanelPatient, formatDate: string -> string): (r: seq<string>)
    ensures |r| == |Headers|
  {
    [p.name, p.gender, p.dateOfBirth,
     if Truthy(p.submittedBy) then p.submittedBy.value else "N/A",
     formatDate(p.createdAt),
     Join("; ", p.medicines), Join("; ", p.medicalConditions),
     Join("; ", p.previousSurgeries), Join("; ", p.allergies)]
  }

  /** `"${cell}"`: the raw text between two quotes, nothing escaped. */
  function Quote(cell: string): (r: string)
    ensures |r| == |cell| + 2 && r[0] == '"' && r[|r| - 1] == '"' && r[1..|r| - 1] == cell
  {
    "\"" + cell + "\""
  }

  /** Every cell quoted. */
  function QuoteAll(row: seq<string>): (r: seq<string>)
    ensures |r| == |row| && forall i :: 0 <= i < |row| ==> r[i] == Quote(row[i])
  {
    seq(|row|, i requires 0 <= i < |row| => Quote(row[i]))
  }

  /** One data line. */
  function EncodeRow(row: seq<string>): string {
    Join(",", QuoteAll(row))
  }

  /** The data lines of the filtered patients, in order. */
  function DataLines(filtered: seq<PanelPatient>, formatDate: string -> string): (r: seq<string>)
    ensures |r| == |filtered|
    ensures forall i :: 0 <= i < |filtered| ==> r[i] == EncodeRow(Cells(filtered[i], formatDate))
  {
    seq(|filtered|, i requires 0 <= i < |filtered| => EncodeRow(Cells(filtered[i], formatDate)))
  }

  /** `csvContent`: the unquoted header line, then one line per filtered
      patient, joined with line feeds. */
  function CsvContent(patients: seq<PanelPatient>, searchTerm: string, formatDate: string -> string): string {
    Join("\n", [Join(",", Headers)] + DataLines(FilterPatients(patients, searchTerm), formatDate))
  }

  /** No cell of the patient holds a line feed. */
  predicate NoLineFeed(p: PanelPatient, formatDate: string -> string) {
    forall j :: 0 <= j < |Headers| ==> '\n' !in Cells(p, formatDate)[j]
  }

  /** A quoted row holds a character only if a cell, a quote or a comma is
      that character. */
  lemma EncodeRowAvoids(row: seq<string>, c: char)
    requires c != '"' && c != ','
    requires forall j :: 0 <= j < |row| ==> c !in row[j]
    ensures c !in EncodeRow(row)
  {
    var q := QuoteAll(row);
    forall j | 0 <= j < |q| ensures c !in q[j] {
      assert q[j] == "\"" + row[j] + "\"";
    }
    JoinAvoids(",", q, c);
  }

  /** The header line is one line. */
  lemma HeaderLineAvoidsLineFeed()
    ensures '\n' !in Join(",", Headers)
  {
    forall i | 0 <= i < |Headers| ensures '\n' !in Headers[i] {
      if i == 0 { assert Headers[i] == "Name"; }
      else if i == 1 { assert Headers[i] == "Gender"; }
      else if i == 2 { assert Headers[i] == "Date of Birth"; }
      else if i == 3 { assert Headers[i] == "Submitted By"; }
      else if i == 4 { assert Headers[i] == "Submission Date"; }
      else if i == 5 { assert Headers[i] == "Medicines"; }
      else if i == 6 { assert Headers[i] == "Medical Conditions"; }
      else if i == 7 { assert Headers[i] == "Previous Surgeries"; }
      else { assert Headers[i] == "Allergies"; }
    }
    JoinAvoids(",", Headers, '\n');
  }

  /** The parts of the export: the header line, then the data lines. */
  function CsvLinesOf(filtered: seq<PanelPatient>, formatDate: string -> string): seq<string> {
    [Join(",", Headers)] + DataLines(filtered, formatDate)
  }

  /** Joined with line feeds and split again, the lines come back when no
      cell holds a line feed. */
  lemma ExportLines(filtered: seq<PanelPatient>, formatDate: string -> string)
    requires forall i :: 0 <= i < |filtered| ==> NoLineFeed(filtered[i], formatDate)
    ensures Split(Join("\n", CsvLinesOf(filtered, formatDate)), '\n') == CsvLinesOf(filtered, formatDate)
  {
    var parts := CsvLinesOf(filtered, formatDate);
    HeaderLineAvoidsLineFeed();
    forall i | 0 <= i < |parts| ensures '\n' !in parts[i] {
      if i > 0 {
        EncodeRowAvoids(Cells(filtered[i - 1], formatDate), '\n');
        assert parts[i] == EncodeRow(Cells(filtered[i - 1], formatDate));
      }
    }
    SplitJoin(parts, '\n');
    assert "\n" == ['\n'];
  }

  /** When no cell holds a line feed, the export splits at line feeds into
      the header line and exactly one line per filtered patient, in filter
      order. */
  lemma CsvLines(patients: seq<PanelPatient>, searchTerm: string, formatDate: string -> string)
    requires forall i :: 0 <= i < |patients| ==> NoLineFeed(patients[i], formatDate)
    ensures var filtered := FilterPatients(patients, searchTerm);
            var lines := Split(CsvContent(patients, searchTerm, formatDate), '\n');
            |lines| == 1 + |filtered| && lines[0] == Join(",", Headers)
            && forall i :: 0 <= i < |filtered| ==> lines[i + 1] == EncodeRow(Cells(filtered[i], formatDate))
  {
    var filtered := FilterPatients(patients, searchTerm);
    forall i | 0 <= i < |filtered| ensures NoLineFeed(filtered[i], formatDate) {
      assert filtered[i] in patients;
      var k :| 0 <= k < |patients| && patients[k] == filtered[i];
    }
    ExportLines(filtered, formatDate);
    var parts := CsvLinesOf(filtered, formatDate);
    forall i | 0 <= i < |filtered| ensures parts[i + 1] == EncodeRow(Cells(filtered[i], formatDate)) {
      assert parts[i + 1] == DataLines(filtered, formatDate)[i];
    }
  }

  /** When no cell holds a comma, a data line splits at commas into the nine
      quoted cells. */
  lemma RowCells(row: seq<string>)
    requires |row| >= 1
    requires forall j :: 0 <= j < |row| ==> ',' !in row[j]
    ensures Split(EncodeRow(row), ',') == QuoteAll(row)
  {
    var q := QuoteAll(row);
    forall j | 0 <= j < |q| ensures ',' !in q[j] {
      assert q[j] == "\"" + row[j] + "\"";
    }
    SplitJoin(q, ',');
    assert "," == [','];
  }

  /** Quotes inside a cell are emitted as they are, not doubled as rule 7 of
      section 2 of RFC 4180 asks: the cell `a"b` becomes `"a"b"`. */
  lemma QuotesNotDoubled()
    ensures EncodeRow(["a\"b"]) == "\"a\"b\""
  {
  }
}
