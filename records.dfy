/** Reading a sheet: row 0 is the header, and it names the fields of every later row. */
module Records {

  /** One row of cells as the spreadsheet returns it (possibly shorter than the header). */
  type Row = seq<string>

  /** The rows of a sheet, top to bottom. */
  type Grid = seq<Row>

  /** One data row keyed by header name; a JSON object with string values. */
  type Record = map<string, string>

  /** Every range the server reads or appends ends at column Z. */
  const MaxColumns: nat := 26

  /** The part of a row that a range ending at column Z returns. */
  function Clip(row: Row): Row
  {
    if |row| <= MaxColumns then row else row[..MaxColumns]
  }

  /** The rows as a read of the range `A1:Z` (or `A:Z`) returns them. */
  function Window(rows: Grid): (w: Grid)
    ensures |w| == |rows|
  {
    seq(|rows|, i requires 0 <= i < |rows| => Clip(rows[i]))
  }

  /** `row[index] || ''`: the cell at `index`, or "" past the end of a short row. */
  function Cell(row: Row, index: nat): string
  {
    if index < |row| then row[index] else ""
  }

  /** The last column whose header is `h`. */
  function LastIndex(headers: seq<string>, h: string): (i: nat)
    requires h in headers
    ensures i < |headers| && headers[i] == h
    ensures forall j :: i < j < |headers| ==> headers[j] != h
  {
    var n := |headers| - 1;
    if headers[n] == h then n
    else
      assert headers == headers[..n] + [headers[n]];
      LastIndex(headers[..n], h)
  }

  /**
   * The record a data row reads as: every header names a field, and the field holds
   * the cell under the last column with that name ("" where the row stops short).
   */
  function RecordOf(headers: seq<string>, row: Row): Record
  {
    map h | h in headers :: Cell(row, LastIndex(headers, h))
  }

  /** Assigning one more column onto a partly built record. */
  lemma RecordOfExtend(headers: seq<string>, row: Row, n: nat)
    requires n < |headers|
    ensures RecordOf(headers[..n + 1], row) == RecordOf(headers[..n], row)[headers[n] := Cell(row, n)]
  {
    var longer, shorter := headers[..n + 1], headers[..n];
    assert longer == shorter + [headers[n]];
    assert longer[..n] == shorter;
    var a := RecordOf(longer, row);
    var b := RecordOf(shorter, row)[headers[n] := Cell(row, n)];
    assert a.Keys == b.Keys;
    forall h | h in a
      ensures a[h] == b[h]
    {
      if h != headers[n] {
        assert h in shorter;
        assert LastIndex(longer, h) == LastIndex(shorter, h);
      }
    }
  }

  /**
   * Builds one record the way the server does: a field is assigned for each header in
   * column order, so a repeated header ends up with its last column's cell.
   */
  method BuildRecord(headers: seq<string>, row: Row) returns (item: Record)
    ensures item == RecordOf(headers, row)
  {
    item := map[];
    var index := 0;
    while index < |headers|
      invariant 0 <= index <= |headers|
      invariant item == RecordOf(headers[..index], row)
    {
      RecordOfExtend(headers, row, index);
      item := item[headers[index] := Cell(row, index)];
      index := index + 1;
    }
    assert headers[..index] == headers;
  }

  /** The records of a sheet that has a header row: one per data row, top to bottom. */
  function RecordsOf(rows: Grid): (records: seq<Record>)
    requires |rows| > 0
    ensures |records| == |rows| - 1
  {
    seq(|rows| - 1, k requires 0 <= k < |rows| - 1 => RecordOf(rows[0], rows[k + 1]))
  }

  /** `rows.slice(1).map(...)`: builds the record of every data row, top to bottom. */
  method ToRecords(rows: Grid) returns (records: seq<Record>)
    requires |rows| > 0
    ensures records == RecordsOf(rows)
  {
    var headers := rows[0];
    records := [];
    var k := 1;
    while k < |rows|
      invariant 1 <= k <= |rows|
      invariant |records| == k - 1
      invariant forall j :: 0 <= j < k - 1 ==> records[j] == RecordOf(headers, rows[j + 1])
    {
      var item := BuildRecord(headers, rows[k]);
      records := records + [item];
      k := k + 1;
    }
  }

  /** Column `i` is the last column whose header is `headers[i]`. */
  predicate IsLast(headers: seq<string>, i: nat)
    requires i < |headers|
  {
    forall j :: i < j < |headers| ==> headers[j] != headers[i]
  }

  /**
   * What a record holds: exactly the header names as fields, and under the field of
   * column `i` (when no later column repeats its name) the cell of that column, or ""
   * when the row is too short to reach it.
   */
  lemma RecordOfColumn(headers: seq<string>, row: Row, i: nat)
    requires i < |headers| && IsLast(headers, i)
    ensures RecordOf(headers, row).Keys == set h | h in headers
    ensures RecordOf(headers, row)[headers[i]] == if i < |row| then row[i] else ""
  {
    assert LastIndex(headers, headers[i]) == i;
  }

  /** Of two columns with the same header, the field holds the later column's cell. */
  lemma DuplicateHeaderLastWins(headers: seq<string>, row: Row, i: nat, j: nat)
    requires i < j < |headers| && headers[i] == headers[j]
    requires IsLast(headers, j)
    ensures RecordOf(headers, row)[headers[i]] == Cell(row, j)
  {
    RecordOfColumn(headers, row, j);
  }
}
