/** Writing records: each incoming record is laid out under the sheet's current header. */
module Projection {
  import opened Records

  /** `item[header] || ''`: the record's value for a column, or "" when it has none. */
  function ValueFor(item: Record, header: string): string
  {
    if header in item then item[header] else ""
  }

  /** One record as the row appended for it: one cell per header, in header order. */
  function RowFor(headers: seq<string>, item: Record): (row: Row)
    ensures |row| == |headers|
  {
    seq(|headers|, i requires 0 <= i < |headers| => ValueFor(item, headers[i]))
  }

  /** The rows appended for a batch of records, in the order the records came. */
  function RowsFor(headers: seq<string>, data: seq<Record>): (rows: Grid)
    ensures |rows| == |data|
  {
    seq(|data|, k requires 0 <= k < |data| => RowFor(headers, data[k]))
  }

  /** What a record keeps once written under `headers`: the header fields, "" where absent. */
  function Restrict(item: Record, headers: seq<string>): Record
  {
    map h | h in headers :: ValueFor(item, h)
  }

  /**
   * Round trip: a record written under a header and read back under the same header
   * is the record cut down to the header's fields, with "" for the ones it lacked.
   * This holds even with repeated headers, since every copy of a column gets the same value.
   */
  lemma ReadBackRow(headers: seq<string>, item: Record)
    ensures RecordOf(headers, RowFor(headers, item)) == Restrict(item, headers)
  {
    var row := RowFor(headers, item);
    var a, b := RecordOf(headers, row), Restrict(item, headers);
    assert a.Keys == b.Keys;
    forall h | h in a
      ensures a[h] == b[h]
    {
      var i := LastIndex(headers, h);
      assert row[i] == ValueFor(item, h);
    }
  }

  /** A key that is not a header name is dropped: adding it changes no cell. */
  lemma RowForDropsUnknownKeys(headers: seq<string>, item: Record, key: string, value: string)
    requires key !in headers
    ensures RowFor(headers, item[key := value]) == RowFor(headers, item)
  {
    var a, b := RowFor(headers, item[key := value]), RowFor(headers, item);
    forall i | 0 <= i < |headers|
      ensures a[i] == b[i]
    {
      assert headers[i] != key;
    }
  }

  /** With no header row, every record becomes an empty row. */
  lemma NoHeaderGivesEmptyRows(data: seq<Record>)
    ensures forall k :: 0 <= k < |data| ==> RowsFor([], data)[k] == []
  {
  }
}
