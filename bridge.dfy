/**
 * The HTTP routes over one spreadsheet: read a fixed sheet as records, append records
 * under a sheet's header, and delete the first row whose "Email ID" cell holds a key.
 * The remote spreadsheet is a list of named sheets; every remote request a route makes
 * is recorded, in order, so that "no request was made" can be stated.
 */
module Bridge {
  import opened Wrappers
  import opened Records
  import opened Projection
  import opened Lookup

  /** One tab of the spreadsheet: its title, its numeric id and its rows. */
  datatype Sheet = Sheet(title: string, sheetId: nat, rows: Grid)

  /** A request sent to the remote spreadsheet service. */
  datatype Call =
    | GetSpreadsheet                                        // the spreadsheet's sheet list
    | GetValues(range: string)                              // the values of a range
    | AppendValues(range: string, values: Grid)             // rows added after the table
    | DeleteRows(sheetId: nat, startIndex: nat, endIndex: nat)  // rows [startIndex, endIndex) removed

  /** The JSON body of a response. */
  datatype Body =
    | RecordsBody(data: seq<Record>)
    | AppendedBody(message: string)
    | RemovedBody(message: string, removedRow: nat)
    | ErrorBody(error: string, details: Option<string>)

  datatype Response = Response(status: nat, body: Body)

  /** What a request does: the response, the sheets afterwards, and the remote calls made. */
  datatype Effect = Effect(response: Response, sheets: seq<Sheet>, calls: seq<Call>)

  /** The three read routes, each bound to a fixed sheet. */
  datatype Route = GetData | GetEmail | GetSlackMessages

  function SheetOf(route: Route): string
  {
    match route
    case GetData => "data"
    case GetEmail => "email"
    case GetSlackMessages => "slack_messages"
  }

  function FailureLabel(route: Route): string
  {
    match route
    case GetData => "Failed to retrieve data"
    case GetEmail => "Failed to retrieve email data"
    case GetSlackMessages => "Failed to retrieve slack messages data"
  }

  /** The body of a request to append rows; a field is None when the JSON leaves it out or sets it to null. */
  datatype PostBody = PostBody(spreadsheetId: Option<string>, sheetName: Option<string>, data: Option<seq<Record>>)

  /** The body of a request to delete a row. */
  datatype RemoveBody = RemoveBody(spreadsheetId: Option<string>, sheetName: Option<string>, emailId: Option<string>)

  /** JavaScript falsiness of a string parameter: absent or empty. */
  predicate Falsy(p: Option<string>)
  {
    p.None? || p.value == ""
  }

  /** An array is never falsy, so `data` is missing only when it is absent. */
  predicate PostMissing(body: PostBody)
  {
    Falsy(body.spreadsheetId) || Falsy(body.sheetName) || body.data.None?
  }

  predicate RemoveMissing(body: RemoveBody)
  {
    Falsy(body.spreadsheetId) || Falsy(body.sheetName) || Falsy(body.emailId)
  }

  /** `sheets.find(s => s.properties.title === name)`: the first sheet with exactly that title. */
  function FindSheet(sheets: seq<Sheet>, name: string): (r: Option<nat>)
    ensures r.Some? ==> r.value < |sheets| && sheets[r.value].title == name
    ensures r.Some? ==> forall j :: 0 <= j < r.value ==> sheets[j].title != name
    ensures r.None? <==> forall j :: 0 <= j < |sheets| ==> sheets[j].title != name
  {
    if |sheets| == 0 then None
    else if sheets[0].title == name then Some(0)
    else
      match FindSheet(sheets[1..], name)
      case None => None
      case Some(i) => Some(i + 1)
  }

  /** `part` occurs in `s` starting at position `i`. */
  predicate OccursAt(s: string, part: string, i: nat)
  {
    i + |part| <= |s| && s[i..i + |part|] == part
  }

  /** JavaScript's `s.includes(part)`. */
  predicate Includes(s: string, part: string)
  {
    exists i: nat :: i <= |s| && OccursAt(s, part, i)
  }

  /** The message thrown when the named sheet does not exist. */
  function SheetNotFoundDetails(name: string): string
  {
    "Sheet \"" + name + "\" not found in spreadsheet"
  }

  /** The message thrown when the sheet has no rows at all. */
  const NoDataFound: string := "No data found"

  /** The status a read route gives a failure: 404 when the message says "not found". */
  function FailureStatus(message: string): nat
  {
    if Includes(message, "not found") then 404 else 500
  }

  /** Reading a sheet: its records, or the message of the failure. */
  function ReadSheet(sheets: seq<Sheet>, name: string): Result<seq<Record>, string>
  {
    match FindSheet(sheets, name)
    case None => Failure(SheetNotFoundDetails(name))
    case Some(k) =>
      var rows := Window(sheets[k].rows);
      if |rows| == 0 then Failure(NoDataFound) else Success(RecordsOf(rows))
  }

  /** The remote calls a read makes. */
  function ReadCalls(sheets: seq<Sheet>, name: string): seq<Call>
  {
    if FindSheet(sheets, name).None? then [GetSpreadsheet]
    else [GetSpreadsheet, GetValues(name + "!A1:Z")]
  }

  /** A read route. */
  function HandleGet(sheets: seq<Sheet>, route: Route): Effect
  {
    var name := SheetOf(route);
    var response :=
      match ReadSheet(sheets, name)
      case Success(data) => Response(200, RecordsBody(data))
      case Failure(message) => Response(FailureStatus(message), ErrorBody(FailureLabel(route), Some(message)));
    Effect(response, sheets, ReadCalls(sheets, name))
  }

  /** The header an append lays its rows out under: the first row of `A1:Z1`, or none. */
  function HeaderRow(rows: Grid): Row
  {
    if |rows| == 0 then [] else Clip(rows[0])
  }

  /** The append route. */
  function HandlePost(sheets: seq<Sheet>, body: PostBody): Effect
  {
    if PostMissing(body) then
      Effect(Response(400, ErrorBody("Missing required parameters", Some("spreadsheetId, sheetName, and data are required"))),
             sheets, [])
    else
      var name := body.sheetName.value;
      match FindSheet(sheets, name)
      case None =>
        Effect(Response(404, ErrorBody("Sheet not found", Some(SheetNotFoundDetails(name)))), sheets, [GetSpreadsheet])
      case Some(k) =>
        var values := RowsFor(HeaderRow(sheets[k].rows), body.data.value);
        Effect(Response(200, AppendedBody("Data successfully appended to sheet")),
               sheets[k := sheets[k].(rows := sheets[k].rows + values)],
               [GetSpreadsheet, GetValues(name + "!A1:Z1"), AppendValues(name + "!A:Z", values)])
  }

  /** The sheet's rows with row `index` taken out, as a one-row dimension delete leaves them. */
  function RemoveRow(rows: Grid, index: nat): Grid
    requires index < |rows|
  {
    rows[..index] + rows[index + 1..]
  }

  /** The delete route. */
  function HandleRemove(sheets: seq<Sheet>, body: RemoveBody): Effect
  {
    if RemoveMissing(body) then
      Effect(Response(400, ErrorBody("Missing required parameters", Some("spreadsheetId, sheetName, and emailId are required"))),
             sheets, [])
    else
      var name, key := body.sheetName.value, body.emailId.value;
      match FindSheet(sheets, name)
      case None => Effect(Response(404, ErrorBody("Sheet not found", None)), sheets, [GetSpreadsheet])
      case Some(k) =>
        var read := [GetSpreadsheet, GetValues(name + "!A:Z")];
        var rows := Window(sheets[k].rows);
        if |rows| == 0 then Effect(Response(404, ErrorBody(NoDataFound, None)), sheets, read)
        else
          match IndexOf(rows[0], KeyColumn)
          case None => Effect(Response(400, ErrorBody("Email ID column not found", None)), sheets, read)
          case Some(col) =>
            match FindRow(rows, col, key)
            case None => Effect(Response(404, ErrorBody("Email ID not found in sheet", None)), sheets, read)
            case Some(r) =>
              Effect(Response(200, RemovedBody("Email successfully removed from sheet", r + 1)),
                     sheets[k := sheets[k].(rows := RemoveRow(sheets[k].rows, r))],
                     read + [DeleteRows(sheets[k].sheetId, r, r + 1)])
  }

  // ---------------------------------------------------------------------------
  // Status selection on the read routes
  // ---------------------------------------------------------------------------

  /** A missing sheet's message says "not found", so a read route answers 404. */
  lemma SheetNotFoundIs404(name: string)
    ensures FailureStatus(SheetNotFoundDetails(name)) == 404
  {
    var prefix := "Sheet \"" + name + "\" ";
    var message := SheetNotFoundDetails(name);
    assert message == prefix + "not found" + " in spreadsheet";
    assert message[|prefix|..|prefix| + 9] == "not found";
    assert OccursAt(message, "not found", |prefix|);
  }

  /** "No data found" does not contain "not found", so an empty sheet gives 500, not 404. */
  lemma NoDataFoundIs500()
    ensures FailureStatus(NoDataFound) == 500
  {
    forall i: nat | i <= |NoDataFound|
      ensures !OccursAt(NoDataFound, "not found", i)
    {
      if i + 9 <= |NoDataFound| {
        assert NoDataFound[i..i + 9][0] == NoDataFound[i] != 'n';
      }
    }
  }

  // ---------------------------------------------------------------------------
  // Read routes
  // ---------------------------------------------------------------------------

  /** A read route on a sheet that does not exist: 404, one remote call, nothing read. */
  lemma GetUnknownSheet(sheets: seq<Sheet>, route: Route)
    requires FindSheet(sheets, SheetOf(route)).None?
    ensures HandleGet(sheets, route).response
         == Response(404, ErrorBody(FailureLabel(route), Some(SheetNotFoundDetails(SheetOf(route)))))
    ensures HandleGet(sheets, route).calls == [GetSpreadsheet]
  {
    SheetNotFoundIs404(SheetOf(route));
  }

  /** A read route on a sheet with no rows at all fails with "No data found" and status 500. */
  lemma GetEmptySheet(sheets: seq<Sheet>, route: Route, k: nat)
    requires FindSheet(sheets, SheetOf(route)) == Some(k)
    requires sheets[k].rows == []
    ensures HandleGet(sheets, route).response == Response(500, ErrorBody(FailureLabel(route), Some("No data found")))
  {
    NoDataFoundIs500();
  }

  /** Within columns A to Z, a cell reads the same from the clipped row as from the stored one. */
  lemma CellOfClip(row: Row, i: nat)
    requires i < MaxColumns
    ensures Cell(Clip(row), i) == Cell(row, i)
  {
  }

  /**
   * A read route on a sheet with a header row: status 200 and one record per data row,
   * in sheet order. Record `j` comes from row `j + 1` (the header is never a record), has
   * every header name as a field, and the field of column `i` (its last occurrence)
   * holds that column's cell, or "" where the row is short. A header-only sheet reads
   * as an empty list.
   */
  lemma GetReadsEveryDataRow(sheets: seq<Sheet>, route: Route, k: nat)
    requires FindSheet(sheets, SheetOf(route)) == Some(k)
    requires |sheets[k].rows| > 0
    ensures var e := HandleGet(sheets, route);
      var rows, header := sheets[k].rows, Clip(sheets[k].rows[0]);
      && e.response.status == 200 && e.response.body.RecordsBody?
      && |e.response.body.data| == |rows| - 1
      && (forall j :: 0 <= j < |rows| - 1 ==> e.response.body.data[j].Keys == set h | h in header)
      && (forall j, i :: 0 <= j < |rows| - 1 && 0 <= i < |header| && IsLast(header, i) ==>
            e.response.body.data[j][header[i]] == Cell(rows[j + 1], i))
  {
    var rows, header := sheets[k].rows, Clip(sheets[k].rows[0]);
    var w := Window(rows);
    var data := RecordsOf(w);
    assert ReadSheet(sheets, SheetOf(route)) == Success(data);
    assert HandleGet(sheets, route).response == Response(200, RecordsBody(data));
    forall j | 0 <= j < |rows| - 1
      ensures data[j] == RecordOf(header, Clip(rows[j + 1]))
      ensures data[j].Keys == set h | h in header
    {
      assert w[j + 1] == Clip(rows[j + 1]);
    }
    forall j, i | 0 <= j < |rows| - 1 && 0 <= i < |header| && IsLast(header, i)
      ensures data[j][header[i]] == Cell(rows[j + 1], i)
    {
      RecordOfColumn(header, Clip(rows[j + 1]), i);
      CellOfClip(rows[j + 1], i);
    }
  }

  // ---------------------------------------------------------------------------
  // Append route
  // ---------------------------------------------------------------------------

  /**
   * The append route answers 400 exactly when a parameter is missing, and then it
   * neither contacts the spreadsheet nor changes it.
   */
  lemma PostRejectsMissingParameters(sheets: seq<Sheet>, body: PostBody)
    ensures HandlePost(sheets, body).response.status == 400 <==> PostMissing(body)
    ensures PostMissing(body) ==> HandlePost(sheets, body).calls == [] && HandlePost(sheets, body).sheets == sheets
  {
  }

  /**
   * The append route answers 404 exactly when the parameters are present and no sheet
   * has the title; any answer but 200 leaves every sheet as it was.
   */
  lemma PostUnknownSheet(sheets: seq<Sheet>, body: PostBody)
    ensures HandlePost(sheets, body).response.status == 404
        <==> !PostMissing(body) && forall j :: 0 <= j < |sheets| ==> sheets[j].title != body.sheetName.value
    ensures HandlePost(sheets, body).response.status != 200 ==> HandlePost(sheets, body).sheets == sheets
  {
  }

  /** The sheets after an append that found its sheet. */
  lemma PostOutcome(sheets: seq<Sheet>, body: PostBody, k: nat)
    requires !PostMissing(body)
    requires FindSheet(sheets, body.sheetName.value) == Some(k)
    ensures HandlePost(sheets, body).response.status == 200
    ensures HandlePost(sheets, body).sheets
         == sheets[k := sheets[k].(rows := sheets[k].rows + RowsFor(HeaderRow(sheets[k].rows), body.data.value))]
  {
  }

  /**
   * A successful append adds one row per record at the end of the resolved sheet, each
   * laid out under the header as it is at write time; every earlier row and every other
   * sheet stays as it was.
   */
  lemma PostAppendsAtEnd(sheets: seq<Sheet>, body: PostBody, k: nat)
    requires !PostMissing(body)
    requires FindSheet(sheets, body.sheetName.value) == Some(k)
    ensures var e := HandlePost(sheets, body);
      var before, after, data := sheets[k].rows, e.sheets[k].rows, body.data.value;
      && e.response.status == 200
      && |e.sheets| == |sheets|
      && (forall j :: 0 <= j < |sheets| && j != k ==> e.sheets[j] == sheets[j])
      && e.sheets[k].title == sheets[k].title && e.sheets[k].sheetId == sheets[k].sheetId
      && |after| == |before| + |data|
      && after[..|before|] == before
      && (forall m :: 0 <= m < |data| ==> after[|before| + m] == RowFor(HeaderRow(before), data[m]))
  {
    PostOutcome(sheets, body, k);
    var before, data := sheets[k].rows, body.data.value;
    var values := RowsFor(HeaderRow(before), data);
    var after := before + values;
    assert after[..|before|] == before;
    forall m | 0 <= m < |data|
      ensures after[|before| + m] == RowFor(HeaderRow(before), data[m])
    {
      assert after[|before| + m] == values[m];
    }
  }

  /** Replacing a sheet by one with the same title does not change which sheet a name resolves to. */
  lemma {:induction false} FindSheetKeepsTitles(sheets: seq<Sheet>, k: nat, s: Sheet, name: string)
    requires k < |sheets| && s.title == sheets[k].title
    ensures FindSheet(sheets[k := s], name) == FindSheet(sheets, name)
  {
    if k > 0 {
      assert sheets[k := s][1..] == sheets[1..][k - 1 := s];
      FindSheetKeepsTitles(sheets[1..], k - 1, s, name);
    }
  }

  /** The read view of rows appended under a header is the rows themselves. */
  lemma WindowOfAppend(rows: Grid, values: Grid, width: nat)
    requires width <= MaxColumns
    requires forall m :: 0 <= m < |values| ==> |values[m]| == width
    ensures Window(rows + values) == Window(rows) + values
  {
    var a, b := Window(rows + values), Window(rows) + values;
    forall i | 0 <= i < |a| ensures a[i] == b[i] {
      if i >= |rows| {
        assert (rows + values)[i] == values[i - |rows|];
      }
    }
  }

  /** The records of a sheet that rows were appended to. */
  lemma RecordsOfAppend(rows: Grid, values: Grid)
    requires |rows| > 0
    ensures RecordsOf(rows + values)
         == RecordsOf(rows) + seq(|values|, m requires 0 <= m < |values| => RecordOf(rows[0], values[m]))
  {
    var a := RecordsOf(rows + values);
    var b := RecordsOf(rows) + seq(|values|, m requires 0 <= m < |values| => RecordOf(rows[0], values[m]));
    forall j | 0 <= j < |a| ensures a[j] == b[j] {
      if j + 1 >= |rows| {
        assert (rows + values)[j + 1] == values[j + 1 - |rows|];
      }
    }
  }

  /** Reading back rows written under a header gives the written records cut to that header. */
  lemma ReadBackRows(header: Row, data: seq<Record>)
    ensures seq(|data|, m requires 0 <= m < |data| => RecordOf(header, RowsFor(header, data)[m]))
         == seq(|data|, m requires 0 <= m < |data| => Restrict(data[m], header))
  {
    forall m | 0 <= m < |data|
      ensures RecordOf(header, RowsFor(header, data)[m]) == Restrict(data[m], header)
    {
      ReadBackRow(header, data[m]);
    }
  }

  /**
   * Round trip through the store: after a successful append to a sheet with a header
   * row, reading the sheet gives the old records followed by one record per appended
   * record, in order, each cut down to the header's fields with "" where it had none.
   */
  lemma PostThenRead(sheets: seq<Sheet>, body: PostBody, k: nat)
    requires !PostMissing(body)
    requires FindSheet(sheets, body.sheetName.value) == Some(k)
    requires |sheets[k].rows| > 0
    ensures var name, data, header := body.sheetName.value, body.data.value, Clip(sheets[k].rows[0]);
      && ReadSheet(sheets, name).Success?
      && ReadSheet(HandlePost(sheets, body).sheets, name)
         == Success(ReadSheet(sheets, name).value
                    + seq(|data|, m requires 0 <= m < |data| => Restrict(data[m], header)))
  {
    var name, data := body.sheetName.value, body.data.value;
    var before := sheets[k].rows;
    var header := HeaderRow(before);
    var values := RowsFor(header, data);
    var after := sheets[k := sheets[k].(rows := before + values)];
    PostOutcome(sheets, body, k);
    FindSheetKeepsTitles(sheets, k, after[k], name);
    WindowOfAppend(before, values, |header|);
    var w := Window(before);
    assert w[0] == header;
    RecordsOfAppend(w, values);
    ReadBackRows(header, data);
    assert ReadSheet(sheets, name) == Success(RecordsOf(w));
    assert ReadSheet(after, name) == Success(RecordsOf(w + values));
  }

  // ---------------------------------------------------------------------------
  // Delete route
  // ---------------------------------------------------------------------------

  /** The sheet has rows, but no "Email ID" header within columns A to Z. */
  predicate NoKeyColumn(sheets: seq<Sheet>, name: string)
  {
    match FindSheet(sheets, name)
    case None => false
    case Some(k) => sheets[k].rows != [] && KeyColumn !in Clip(sheets[k].rows[0])
  }

  /** The sheet is missing or empty, or it has the key column but no data row holds `key`. */
  predicate NothingToRemove(sheets: seq<Sheet>, name: string, key: string)
  {
    match FindSheet(sheets, name)
    case None => true
    case Some(k) =>
      var rows := Window(sheets[k].rows);
      rows == []
      || (KeyColumn in rows[0]
          && forall j :: 0 < j < |rows| ==> !Matches(rows, j, IndexOf(rows[0], KeyColumn).value, key))
  }

  /**
   * The delete route answers 400 exactly when a parameter is missing or the sheet has
   * rows but no "Email ID" column; with a parameter missing it neither contacts the
   * spreadsheet nor changes it.
   */
  lemma RemoveRejects400(sheets: seq<Sheet>, body: RemoveBody)
    ensures HandleRemove(sheets, body).response.status == 400
        <==> RemoveMissing(body) || NoKeyColumn(sheets, body.sheetName.value)
    ensures RemoveMissing(body) ==> HandleRemove(sheets, body).calls == [] && HandleRemove(sheets, body).sheets == sheets
  {
    if !RemoveMissing(body) && FindSheet(sheets, body.sheetName.value).Some? {
      var k := FindSheet(sheets, body.sheetName.value).value;
      if sheets[k].rows != [] {
        assert Window(sheets[k].rows)[0] == Clip(sheets[k].rows[0]);
      }
    }
  }

  /**
   * The delete route answers 404 exactly when the sheet is missing, has no rows, or
   * has the key column but no data row holding the key; any answer but 200 leaves
   * every sheet as it was.
   */
  lemma RemoveNotFound(sheets: seq<Sheet>, body: RemoveBody)
    ensures HandleRemove(sheets, body).response.status == 404
        <==> !RemoveMissing(body) && NothingToRemove(sheets, body.sheetName.value, body.emailId.value)
    ensures HandleRemove(sheets, body).response.status != 200 ==> HandleRemove(sheets, body).sheets == sheets
  {
  }

  /** The chain of lookups that a successful delete goes through. */
  predicate RemoveHits(sheets: seq<Sheet>, body: RemoveBody, k: nat, col: nat, r: nat)
  {
    && !RemoveMissing(body)
    && FindSheet(sheets, body.sheetName.value) == Some(k)
    && sheets[k].rows != [] && IndexOf(Clip(sheets[k].rows[0]), KeyColumn) == Some(col)
    && FindRow(Window(sheets[k].rows), col, body.emailId.value) == Some(r)
  }

  /** What a delete whose lookups all succeed does. */
  lemma RemoveOutcome(sheets: seq<Sheet>, body: RemoveBody, k: nat, col: nat, r: nat)
    requires RemoveHits(sheets, body, k, col, r)
    ensures r < |sheets[k].rows|
    ensures HandleRemove(sheets, body)
         == Effect(Response(200, RemovedBody("Email successfully removed from sheet", r + 1)),
                   sheets[k := sheets[k].(rows := RemoveRow(sheets[k].rows, r))],
                   [GetSpreadsheet, GetValues(body.sheetName.value + "!A:Z"), DeleteRows(sheets[k].sheetId, r, r + 1)])
  {
    assert Window(sheets[k].rows)[0] == Clip(sheets[k].rows[0]);
  }

  /** Taking row `r` out keeps the rows above and below, in order, and nothing else. */
  lemma RemoveRowShape(rows: Grid, r: nat)
    requires r < |rows|
    ensures var after := RemoveRow(rows, r);
      && |after| == |rows| - 1
      && after[..r] == rows[..r] && after[r..] == rows[r + 1..]
      && multiset(after) + multiset{rows[r]} == multiset(rows)
  {
    assert rows == rows[..r] + [rows[r]] + rows[r + 1..];
  }

  /** Taking a row out of the sheet takes the same row out of its read view. */
  lemma WindowOfRemove(rows: Grid, r: nat)
    requires r < |rows|
    ensures Window(RemoveRow(rows, r)) == RemoveRow(Window(rows), r)
  {
    var a, b := Window(RemoveRow(rows, r)), RemoveRow(Window(rows), r);
    forall j | 0 <= j < |a| ensures a[j] == b[j] {
      if j < r {
        assert RemoveRow(rows, r)[j] == rows[j];
      } else {
        assert RemoveRow(rows, r)[j] == rows[j + 1];
      }
    }
  }

  /**
   * A successful delete removes exactly physical row `r`, the first data row whose key
   * cell equals the key, and reports `r + 1`: the sheet shrinks by one, the rows above
   * and below keep their contents and order, and no other sheet changes.
   */
  lemma RemoveDeletesFirstMatch(sheets: seq<Sheet>, body: RemoveBody, k: nat, col: nat, r: nat)
    requires RemoveHits(sheets, body, k, col, r)
    ensures var e, before := HandleRemove(sheets, body), sheets[k].rows;
      var after := e.sheets[k].rows;
      && e.response == Response(200, RemovedBody("Email successfully removed from sheet", r + 1))
      && 0 < r < |before| && col < |before[r]| && before[r][col] == body.emailId.value
      && (forall j :: 0 < j < r ==> !(col < |before[j]| && before[j][col] == body.emailId.value))
      && |after| == |before| - 1
      && after[..r] == before[..r] && after[r..] == before[r + 1..]
      && multiset(after) + multiset{before[r]} == multiset(before)
      && |e.sheets| == |sheets| && (forall j :: 0 <= j < |sheets| && j != k ==> e.sheets[j] == sheets[j])
      && e.calls[|e.calls| - 1] == DeleteRows(sheets[k].sheetId, r, r + 1)
  {
    RemoveOutcome(sheets, body, k, col, r);
    var before := sheets[k].rows;
    var w := Window(before);
    var key := body.emailId.value;
    assert col < MaxColumns;
    assert w[r] == Clip(before[r]);
    forall j | 0 < j < r
      ensures !(col < |before[j]| && before[j][col] == key)
    {
      assert !Matches(w, j, col, key);
      assert w[j] == Clip(before[j]);
    }
    RemoveRowShape(before, r);
  }

  /**
   * When exactly one data row holds the key, a successful delete leaves one row fewer
   * and no data row holding it; the header row stays in place.
   */
  lemma RemoveUniqueKeyGone(sheets: seq<Sheet>, body: RemoveBody, k: nat, col: nat, r: nat)
    requires RemoveHits(sheets, body, k, col, r)
    requires forall j :: 0 <= j < |sheets[k].rows| && Matches(Window(sheets[k].rows), j, col, body.emailId.value) ==> j == r
    ensures var e := HandleRemove(sheets, body);
      var w := Window(e.sheets[k].rows);
      && |e.sheets[k].rows| == |sheets[k].rows| - 1
      && w[0] == Window(sheets[k].rows)[0]
      && forall j :: 0 <= j < |w| ==> !Matches(w, j, col, body.emailId.value)
  {
    RemoveOutcome(sheets, body, k, col, r);
    var before := sheets[k].rows;
    var old_w := Window(before);
    WindowOfRemove(before, r);
    var w := RemoveRow(old_w, r);
    forall j | 0 <= j < |w|
      ensures !Matches(w, j, col, body.emailId.value)
    {
      var key := body.emailId.value;
      if j < r {
        assert w[j] == old_w[j];
        assert Matches(w, j, col, key) ==> Matches(old_w, j, col, key);
      } else {
        assert w[j] == old_w[j + 1];
        assert Matches(w, j, col, key) ==> Matches(old_w, j + 1, col, key);
      }
    }
  }

  /** Taking out a data row takes out its record and keeps the others in order. */
  lemma RecordsOfRemove(rows: Grid, r: nat)
    requires 0 < r < |rows|
    ensures RecordsOf(RemoveRow(rows, r)) == RecordsOf(rows)[..r - 1] + RecordsOf(rows)[r..]
  {
    var after := RemoveRow(rows, r);
    var a, b := RecordsOf(after), RecordsOf(rows)[..r - 1] + RecordsOf(rows)[r..];
    assert after[0] == rows[0];
    forall j | 0 <= j < |a| ensures a[j] == b[j] {
      if j + 1 < r {
        assert after[j + 1] == rows[j + 1];
      } else {
        assert after[j + 1] == rows[j + 2];
      }
    }
  }

  /**
   * Reading the sheet after a successful delete gives the records it gave before,
   * without the deleted row's record (record `r - 1`), in the same order.
   */
  lemma RemoveThenRead(sheets: seq<Sheet>, body: RemoveBody, k: nat, col: nat, r: nat)
    requires RemoveHits(sheets, body, k, col, r)
    ensures var name := body.sheetName.value;
      && ReadSheet(sheets, name).Success?
      && |ReadSheet(sheets, name).value| == |sheets[k].rows| - 1
      && ReadSheet(HandleRemove(sheets, body).sheets, name)
         == Success(ReadSheet(sheets, name).value[..r - 1] + ReadSheet(sheets, name).value[r..])
  {
    var name := body.sheetName.value;
    RemoveOutcome(sheets, body, k, col, r);
    var before := sheets[k].rows;
    var after := sheets[k := sheets[k].(rows := RemoveRow(before, r))];
    FindSheetKeepsTitles(sheets, k, after[k], name);
    WindowOfRemove(before, r);
    RecordsOfRemove(Window(before), r);
    assert ReadSheet(sheets, name) == Success(RecordsOf(Window(before)));
    assert ReadSheet(after, name) == Success(RecordsOf(RemoveRow(Window(before), r)));
  }

  /** The remote spreadsheet as the server sees it, with the log of requests sent to it. */
  class Spreadsheet {
    var sheets: seq<Sheet>
    var calls: seq<Call>

    constructor (initial: seq<Sheet>)
      ensures sheets == initial && calls == []
    {
      sheets := initial;
      calls := [];
    }

    /** Resolves the sheet, reads its rows and turns every data row into a record. */
    method FetchSheetData(sheetName: string) returns (result: Result<seq<Record>, string>)
      modifies this`calls
      ensures result == ReadSheet(sheets, sheetName)
      ensures calls == old(calls) + ReadCalls(sheets, sheetName)
    {
      calls := calls + [GetSpreadsheet];
      var found := FindSheet(sheets, sheetName);
      if found.None? {
        return Failure(SheetNotFoundDetails(sheetName));
      }
      calls := calls + [GetValues(sheetName + "!A1:Z")];
      var rows := Window(sheets[found.value].rows);
      if |rows| == 0 {
        return Failure(NoDataFound);
      }
      var data := ToRecords(rows);
      return Success(data);
    }

    /** A read route: the records, or a 404/500 chosen by the failure message. */
    method Get(route: Route) returns (response: Response)
      modifies this`calls
      ensures var e := HandleGet(old(sheets), route);
        response == e.response && sheets == e.sheets && calls == old(calls) + e.calls
    {
      var result := FetchSheetData(SheetOf(route));
      match result
      case Success(data) =>
        response := Response(200, RecordsBody(data));
      case Failure(message) =>
        response := Response(FailureStatus(message), ErrorBody(FailureLabel(route), Some(message)));
    }

    /** The append route: projects the records onto the current header and appends them. */
    method PostData(body: PostBody) returns (response: Response)
      modifies this
      ensures var e := HandlePost(old(sheets), body);
        response == e.response && sheets == e.sheets && calls == old(calls) + e.calls
    {
      if Falsy(body.spreadsheetId) || Falsy(body.sheetName) || body.data.None? {
        return Response(400, ErrorBody("Missing required parameters", Some("spreadsheetId, sheetName, and data are required")));
      }
      var name := body.sheetName.value;
      calls := calls + [GetSpreadsheet];
      var found := FindSheet(sheets, name);
      if found.None? {
        return Response(404, ErrorBody("Sheet not found", Some(SheetNotFoundDetails(name))));
      }
      var k := found.value;
      calls := calls + [GetValues(name + "!A1:Z1")];
      var headers := HeaderRow(sheets[k].rows);
      var values := RowsFor(headers, body.data.value);
      calls := calls + [AppendValues(name + "!A:Z", values)];
      sheets := sheets[k := sheets[k].(rows := sheets[k].rows + values)];
      response := Response(200, AppendedBody("Data successfully appended to sheet"));
    }

    /** The delete route: removes the first data row whose "Email ID" cell is the key. */
    method RemoveData(body: RemoveBody) returns (response: Response)
      modifies this
      ensures var e := HandleRemove(old(sheets), body);
        response == e.response && sheets == e.sheets && calls == old(calls) + e.calls
    {
      if Falsy(body.spreadsheetId) || Falsy(body.sheetName) || Falsy(body.emailId) {
        return Response(400, ErrorBody("Missing required parameters", Some("spreadsheetId, sheetName, and emailId are required")));
      }
      var name, key := body.sheetName.value, body.emailId.value;
      calls := calls + [GetSpreadsheet];
      var found := FindSheet(sheets, name);
      if found.None? {
        return Response(404, ErrorBody("Sheet not found", None));
      }
      var k := found.value;
      calls := calls + [GetValues(name + "!A:Z")];
      var rows := Window(sheets[k].rows);
      if |rows| == 0 {
        return Response(404, ErrorBody(NoDataFound, None));
      }
      var col := IndexOf(rows[0], KeyColumn);
      if col.None? {
        return Response(400, ErrorBody("Email ID column not found", None));
      }
      var rowIndex := FindRow(rows, col.value, key);
      if rowIndex.None? {
        return Response(404, ErrorBody("Email ID not found in sheet", None));
      }
      var r := rowIndex.value;
      calls := calls + [DeleteRows(sheets[k].sheetId, r, r + 1)];
      sheets := sheets[k := sheets[k].(rows := RemoveRow(sheets[k].rows, r))];
      response := Response(200, RemovedBody("Email successfully removed from sheet", r + 1));
    }
  }
}
