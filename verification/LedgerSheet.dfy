/** The contract ledger's sheet as it is read and written, and what entering rows into it keeps. */
module LedgerSheet {
  import opened Options
  import opened Decimal
  import opened LedgerPlan
  import opened LedgerUpdates

  /** The rows that `A1:O10000` covers. */
  const READ_ROWS := 10_000

  /** A row entered by an approval: for which envelope, into how many rows, under which number, in place of what. */
  datatype Entry = Entry(envelopeId: string, rows: nat, year: nat, number: nat, replaced: Option<Row>)

  // ---- The sheet as read and written ----

  function Read(sheet: seq<Row>): seq<Row> {
    if |sheet| <= READ_ROWS then sheet else sheet[..READ_ROWS]
  }

  function PutRow(sheet: seq<Row>, at: nat, row: Row): seq<Row>
    requires at <= |sheet|
  {
    if at == |sheet| then sheet + [row] else sheet[at := row]
  }

  predicate Present(sheet: seq<Row>, id: string) {
    exists r :: 1 <= r < |sheet| && HasId(sheet[r], id)
  }

  /** Whatever a reader saw of the id and number columns is still there. */
  ghost predicate KeepsRead(sheet: seq<Row>, sheet': seq<Row>) {
    && |Read(sheet)| <= |Read(sheet')|
    && (forall r, id :: 0 <= r < |Read(sheet)| ==> (HasId(Read(sheet')[r], id) <==> HasId(Read(sheet)[r], id)))
    && (forall r, year :: 0 <= r < |Read(sheet)| ==>
          RowNumber(Read(sheet')[r], year) == RowNumber(Read(sheet)[r], year))
  }

  lemma KeptIsPresent(sheet: seq<Row>, sheet': seq<Row>, id: string)
    requires KeepsRead(sheet, sheet') && Present(Read(sheet), id)
    ensures Present(Read(sheet'), id)
  {
    var r :| 1 <= r < |Read(sheet)| && HasId(Read(sheet)[r], id);
    assert HasId(Read(sheet')[r], id);
  }

  lemma KeepsReadTransitive(a: seq<Row>, b: seq<Row>, c: seq<Row>)
    requires KeepsRead(a, b) && KeepsRead(b, c)
    ensures KeepsRead(a, c)
  {
  }

  /** A row is entered behind everything that was read, so nothing read is touched. */
  lemma EnteringKeepsRead(sheet: seq<Row>, row: Row)
    ensures |Read(sheet)| <= |sheet| && KeepsRead(sheet, PutRow(sheet, |Read(sheet)|, row))
    ensures PutRow(sheet, |Read(sheet)|, row) == sheet + [row] <==> |sheet| <= READ_ROWS
  {
    var sheet' := PutRow(sheet, |Read(sheet)|, row);
    assert |sheet| > READ_ROWS ==> |sheet'| != |sheet + [row]|;
    assert forall r :: 0 <= r < |Read(sheet)| ==> Read(sheet')[r] == Read(sheet)[r];
  }

  /**
   * A row that readers did not see is seen once it is entered exactly if the sheet was shorter than what is
   * read. At 10,000 rows the entry is never confirmed, and every retry enters it again.
   */
  lemma EnteredIsSeenIffItFits(sheet: seq<Row>, row: Row, id: string)
    requires HasId(row, id) && sheet != [] && !Present(Read(sheet), id)
    ensures |Read(sheet)| <= |sheet|
    ensures Present(Read(PutRow(sheet, |Read(sheet)|, row)), id) <==> |sheet| < READ_ROWS
  {
    var sheet' := Read(PutRow(sheet, |Read(sheet)|, row));
    if |sheet| < READ_ROWS {
      assert sheet'[|sheet|] == row;
    } else {
      assert sheet' == Read(sheet);
    }
  }

  lemma WritingKeepsRead(sheet: seq<Row>, update: Update)
    ensures KeepsRead(sheet, Write(sheet, update)) && |Write(sheet, update)| == |sheet|
  {
    var sheet' := Write(sheet, update);
    forall r | 0 <= r < |Read(sheet)|
      ensures forall id :: HasId(Read(sheet')[r], id) <==> HasId(Read(sheet)[r], id)
      ensures forall year :: RowNumber(Read(sheet')[r], year) == RowNumber(Read(sheet)[r], year)
    {
      assert Read(sheet')[r] == sheet'[r] && Read(sheet)[r] == sheet[r];
      WritingShows(sheet[r], Shown(update.status, update.updatedAt));
    }
  }

  /** The row entered for a candidate. */
  function NumberedRow(proposed: Row, year: nat, number: nat): Row
    requires |proposed| == COLUMNS
  {
    proposed[0 := NumberText(year, number)]
  }

  // ---- What every history of the ledger satisfies ----

  /** A row entered where readers look stays; one that replaced something was entered out of their sight. */
  ghost predicate EntryOk(sheet: seq<Row>, e: Entry) {
    && (e.rows < READ_ROWS ==> Present(Read(sheet), e.envelopeId))
    && (e.replaced.Some? <==> e.rows > READ_ROWS)
  }

  ghost predicate EntriesOk(sheet: seq<Row>, entries: seq<Entry>) {
    && (forall i :: 0 <= i < |entries| ==> EntryOk(sheet, entries[i]))
    && (forall i, j :: 0 <= i < j < |entries| && entries[i].envelopeId == entries[j].envelopeId ==>
          entries[i].rows >= READ_ROWS)
  }

  lemma EntriesKept(sheet: seq<Row>, sheet': seq<Row>, entries: seq<Entry>)
    requires EntriesOk(sheet, entries) && KeepsRead(sheet, sheet')
    ensures EntriesOk(sheet', entries)
  {
    forall i | 0 <= i < |entries| ensures EntryOk(sheet', entries[i]) {
      assert EntryOk(sheet, entries[i]);
      if entries[i].rows < READ_ROWS { KeptIsPresent(sheet, sheet', entries[i].envelopeId); }
    }
  }

  lemma EntryAdded(sheet: seq<Row>, entries: seq<Entry>, row: Row, e: Entry)
    requires EntriesOk(sheet, entries) && !Present(Read(sheet), e.envelopeId) && HasId(row, e.envelopeId)
    requires 0 < |sheet| == e.rows && (e.replaced.Some? <==> |sheet| > READ_ROWS)
    ensures |Read(sheet)| <= |sheet| && EntriesOk(PutRow(sheet, |Read(sheet)|, row), entries + [e])
  {
    var sheet' := PutRow(sheet, |Read(sheet)|, row);
    EnteringKeepsRead(sheet, row);
    EntriesKept(sheet, sheet', entries);
    EnteredIsSeenIffItFits(sheet, row, e.envelopeId);
    forall i | 0 <= i < |entries| && entries[i].envelopeId == e.envelopeId ensures entries[i].rows >= READ_ROWS {
      assert EntryOk(sheet, entries[i]);
    }
    assert EntryOk(sheet', e);
  }

  // ---- Each envelope and each number once ----

  /** No id stands in two rows, and no two rows carry one number of one year. */
  ghost predicate Tidy(rows: seq<Row>) {
    && (forall r, t, id :: 1 <= r < t < |rows| && HasId(rows[r], id) ==> !HasId(rows[t], id))
    && forall year: nat :: NumbersDistinct(rows, year)
  }

  ghost predicate NumbersDistinct(rows: seq<Row>, year: nat) {
    forall r, t :: 1 <= r < t < |rows| && RowNumber(rows[r], year) > 0 ==>
      RowNumber(rows[t], year) != RowNumber(rows[r], year)
  }

  /** A number is read under its own year only. */
  lemma NumberOfOtherYear(year: nat, n: nat, other: nat)
    requires other != year
    ensures NumberIn(NumberText(year, n), other).None?
  {
    var text, digits := NumberText(year, n), PadStart(Print(n), 3);
    if Prefix(other) <= text {
      var rest := text[|Prefix(other)|..];
      assert text == Prefix(other) + rest;
      YearsSplit(other, rest, year, digits);
    }
  }

  lemma NumeralHasNoDash(n: nat)
    ensures '-' !in Print(n)
  {
  }

  lemma YearsSplit(y: nat, rest: string, z: nat, rest': string)
    requires Prefix(y) + rest == Prefix(z) + rest'
    ensures y == z
  {
    NumeralHasNoDash(y);
    NumeralHasNoDash(z);
    hide Print;
    var a, b := Print(y) + ['-'] + rest, Print(z) + ['-'] + rest';
    assert Prefix(y) + rest == "DS-" + a && Prefix(z) + rest' == "DS-" + b;
    assert a == ("DS-" + a)[3..] && b == ("DS-" + b)[3..];
    SplitsOnce(Print(y), rest, Print(z), rest', '-');
    PrintInjective(y, z);
  }

  lemma EnteredNumber(row: Row, year: nat, n: nat, other: nat)
    requires Cell(row, 0) == Some(NumberText(year, n))
    ensures RowNumber(row, other) == if other == year then n else 0
  {
    if other == year { NumberRoundTrip(year, n); } else { NumberOfOtherYear(year, n, other); }
  }

  /** Entering a row for an envelope that readers do not see, under the next number, keeps what is read tidy. */
  lemma EnteringKeepsTidy(sheet: seq<Row>, row: Row, id: string, year: nat)
    requires Tidy(Read(sheet)) && sheet != [] && HasId(row, id) && !Present(Read(sheet), id)
    requires Cell(row, 0) == Some(NumberText(year, NextNumber(Read(sheet), year)))
    ensures |Read(sheet)| <= |sheet| && Tidy(Read(PutRow(sheet, |Read(sheet)|, row)))
  {
    hide NumberIn, NumberText, MaxNumber, RowNumber;
    var rows := Read(sheet);
    if |sheet| < READ_ROWS {
      forall other: nat ensures NumbersDistinct(rows + [row], other) {
        EnteredNumber(row, year, NextNumber(rows, year), other);
        assert NumbersDistinct(rows, other);
      }
      assert Read(PutRow(sheet, |rows|, row)) == rows + [row];
    } else {
      assert Read(PutRow(sheet, |rows|, row)) == rows;
    }
  }

  /** Writing status cells keeps what is read tidy. */
  lemma KeepingKeepsTidy(sheet: seq<Row>, sheet': seq<Row>)
    requires Tidy(Read(sheet)) && KeepsRead(sheet, sheet') && |sheet'| == |sheet|
    ensures Tidy(Read(sheet'))
  {
    hide RowNumber;
    forall year: nat ensures NumbersDistinct(Read(sheet'), year) {
      assert NumbersDistinct(Read(sheet), year);
    }
  }
}
