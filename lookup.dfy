/** Finding the row to delete: the key column by name, then the first data row holding the key. */
module Lookup {
  import opened Wrappers
  import opened Records

  /** The header of the column that identifies a row for deletion. */
  const KeyColumn: string := "Email ID"

  /** `headers.indexOf(key)`: the first column named `key`, or none. */
  function IndexOf(headers: seq<string>, key: string): (r: Option<nat>)
    ensures r.Some? ==> r.value < |headers| && headers[r.value] == key
    ensures r.Some? ==> forall j :: 0 <= j < r.value ==> headers[j] != key
    ensures r.None? <==> key !in headers
  {
    if |headers| == 0 then None
    else if headers[0] == key then Some(0)
    else
      match IndexOf(headers[1..], key)
      case None => None
      case Some(i) => Some(i + 1)
  }

  /**
   * The test the search applies to row `index`: a data row (not the header) whose cell
   * in column `col` is exactly `key`; a row too short to reach `col` never matches.
   */
  predicate Matches(rows: Grid, index: nat, col: nat, key: string)
    requires index < |rows|
  {
    index > 0 && col < |rows[index]| && rows[index][col] == key
  }

  /** `rows.findIndex(...)` continued from `from`. */
  function FindRowFrom(rows: Grid, col: nat, key: string, from: nat): (r: Option<nat>)
    ensures r.Some? ==> from <= r.value < |rows| && Matches(rows, r.value, col, key)
    ensures r.Some? ==> forall j :: from <= j < r.value ==> !Matches(rows, j, col, key)
    ensures r.None? ==> forall j :: from <= j < |rows| ==> !Matches(rows, j, col, key)
    decreases |rows| - from
  {
    if from >= |rows| then None
    else if Matches(rows, from, col, key) then Some(from)
    else FindRowFrom(rows, col, key, from + 1)
  }

  /**
   * The row to delete: the first data row whose key cell equals `key`. The header row is
   * never chosen, and no data row above the chosen one holds the key.
   */
  function FindRow(rows: Grid, col: nat, key: string): (r: Option<nat>)
    ensures r.Some? ==> 0 < r.value < |rows| && col < |rows[r.value]| && rows[r.value][col] == key
    ensures r.Some? ==> forall j :: 0 < j < r.value ==> !Matches(rows, j, col, key)
    ensures r.None? <==> forall j :: 0 < j < |rows| ==> !Matches(rows, j, col, key)
  {
    FindRowFrom(rows, col, key, 0)
  }
}
