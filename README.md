# Sheet bridge: rows to records and back

This project models the data logic of `server.js`, a small HTTP server that exposes
sheets of one spreadsheet as JSON. It models three kinds of route:

- **Read.** `/api/get-data`, `/api/get-email` and `/api/get-slack-messages` each read a fixed
  sheet. Row 0 is the header. Every later row becomes a record that maps each header name
  to the cell below it, or to `""` when the row is too short.
- **Append.** `/api/post-data` lays each incoming record out under the sheet's current
  header, in header order, with `""` for missing fields. It then appends the rows at the
  end of the sheet.
- **Delete.** `/api/remove-data` finds the first `Email ID` column. It then deletes the
  first data row whose cell in that column equals the given key, and reports the row's
  1-based number.

The remote spreadsheet is an in-model store: the class `Bridge.Spreadsheet` holds a list of
sheets, each with a title, a numeric id and its rows (`seq<seq<string>>`). Its methods
`Get`, `PostData` and `RemoveData` carry out the three kinds of route. Each method is proved
equal to a pure function (`HandleGet`, `HandlePost`, `HandleRemove`). That function gives the
response, the sheets afterwards and the remote requests made, in order. The store logs every
remote request in `calls`, so "answers 400 before touching the store" is stated as an empty
list of calls. All properties of the routes are lemmas about those three functions.

Files:

- `wrappers.dfy`: `Option` and `Result`.
- `records.dfy`: the read conversion. `BuildRecord` is the field-by-field loop that builds
  one record, proved equal to the declarative `RecordOf`. `ToRecords` runs it over every data
  row.
- `projection.dfy`: the write projection and its round trip with `RecordOf`.
- `lookup.dfy`: `indexOf` on the header and `findIndex` on the rows.
- `bridge.dfy`: sheets, requests, responses, the route functions, the store class and the
  route lemmas.

Every range the server reads ends at column Z. The model applies this as a cut of each row
to its first 26 cells (`Clip`, `Window`). So a header or key column beyond Z is not seen.

An empty sheet on a read route answers 500, not 404. The status test is
`message.includes('not found')`, and "No data found" does not contain "not found"
(`NoDataFoundIs500`). The delete route answers 404 for the same condition.

## Model

| member | source | states |
|---|---|---|
| Records.BuildRecord | server.js:81-85 | assigning each header's cell in column order yields exactly `RecordOf`: every header name is a field, a repeated header holds its last column's cell, and a short row gives `""` |
| Records.ToRecords | server.js:80-86 | one record per data row, in sheet order: record `j` is built from row `j + 1`, so the header row is never a record |
| Records.RecordOfColumn | server.js:82-84 | a record's fields are exactly the header names, and the field of column `i` (its last occurrence) holds that column's cell, or `""` past the end of a short row |
| Records.DuplicateHeaderLastWins | server.js:82-84 | of two columns with the same header, the record holds the later column's cell |
| Projection.ReadBackRow | server.js:173-175 | a record written under a header and read back under it is the record cut down to the header's fields, with `""` for the fields it lacked, even when headers repeat |
| Projection.RowForDropsUnknownKeys | server.js:174 | adding a field whose name is not a header changes no cell of the written row |
| Projection.NoHeaderGivesEmptyRows | server.js:170 | with no header row every record is written as an empty row |
| Lookup.IndexOf | server.js:245-249 | the key column is the first column named `Email ID`; none exactly when no header has that name |
| Lookup.FindRow | server.js:251-257 | the chosen row is a data row (index > 0) whose key cell equals the key exactly, no earlier data row matches, and there is none exactly when no data row matches |
| Bridge.FindSheet | server.js:60-64 | a name resolves to the first sheet whose title equals it exactly, and to none exactly when no title equals it |
| Bridge.SheetNotFoundIs404 | server.js:62-64 | the missing-sheet message contains "not found", so a read route answers 404 |
| Bridge.NoDataFoundIs500 | server.js:99 | "No data found" does not contain "not found", so a read route answers 500 for it |
| Bridge.GetUnknownSheet | server.js:94-104 | a read route on a missing sheet answers 404 with the route's label and message, after one remote call |
| Bridge.GetEmptySheet | server.js:72-76 | a read route on a sheet with no rows answers 500 with "No data found" |
| Bridge.GetReadsEveryDataRow | server.js:78-86 | a read route on a sheet with a header row answers 200 with one record per data row, in order; each has every header name as a field, and the last column of a name gives its cell or `""`; a header-only sheet gives an empty list |
| Bridge.PostRejectsMissingParameters | server.js:137-142 | the append route answers 400 exactly when `spreadsheetId` or `sheetName` is absent or empty, or `data` is absent; it then makes no remote call and changes no sheet |
| Bridge.PostUnknownSheet | server.js:155-162 | the append route answers 404 exactly when the parameters are present and no sheet has the title; any answer but 200 leaves every sheet as it was |
| Bridge.PostAppendsAtEnd | server.js:164-185 | a successful append adds one row per record, in order, at the end of the resolved sheet, each laid out under the header read at write time; earlier rows, the sheet's title and id, and every other sheet are unchanged |
| Bridge.PostThenRead | server.js:170-185 | after an append to a sheet with a header, reading it gives the old records followed by each appended record cut down to the header's fields |
| Bridge.RemoveRejects400 | server.js:203-249 | the delete route answers 400 exactly when a parameter is absent or empty, or the sheet has rows but no `Email ID` header; with a parameter missing it makes no remote call and changes nothing |
| Bridge.RemoveNotFound | server.js:223-257 | the delete route answers 404 exactly when the sheet is missing, has no rows, or no data row holds the key; any answer but 200 leaves every sheet as it was |
| Bridge.RemoveRowShape | server.js:264-271 | deleting the row range `[r, r + 1)` leaves one row fewer, keeps the rows above and below in order, and removes only that row (as a multiset) |
| Bridge.RemoveDeletesFirstMatch | server.js:251-279 | a successful delete removes exactly physical row `r`, the first data row holding the key, reports `r + 1`, keeps all other rows in order, leaves other sheets alone and sends the delete of `[r, r + 1)` last |
| Bridge.RemoveUniqueKeyGone | server.js:259-274 | when one data row holds the key, after the delete the sheet has one row fewer, the same header, and no data row holding the key |
| Bridge.RemoveThenRead | server.js:259-279 | reading after a successful delete gives the earlier records without the deleted row's record, in the same order |
| Bridge.Spreadsheet.FetchSheetData | server.js:50-91 | resolves the sheet, reads it and converts every data row; the result and the remote calls are those of `ReadSheet` and `ReadCalls`, and no sheet changes |
| Bridge.Spreadsheet.Get | server.js:93-130 | a read route's response, sheets and calls are those of `HandleGet` |
| Bridge.Spreadsheet.PostData | server.js:133-198 | the append route's response, new sheets and calls are those of `HandlePost` |
| Bridge.Spreadsheet.RemoveData | server.js:201-287 | the delete route's response, new sheets and calls are those of `HandleRemove` |

## Left out

- Express setup, CORS, body parsing, `/health`, the catch-all 404 route, the error middleware and `app.listen` (server.js:1-29, 289-316). These are HTTP plumbing with no data logic.
- `getServiceAccountAuth` (server.js:32-47): credential parsing and JWT construction go through a foreign library.
- Remote failures: an unknown `spreadsheetId`, a refused credential or a network error throw inside the remote calls. The routes turn these into 500 in their `catch` blocks, or on read routes into a status chosen by the message. The model holds one spreadsheet and its calls never fail, so `spreadsheetId` is only checked for presence.
- `updatedRange` in the append response is the remote service's report of where it wrote, and is not modelled.
- The remote service drops trailing empty rows and cells from what it returns. The store does not: it keeps every row it is given, including appended rows with no non-empty cell.
- Bridge.PostThenRead: a row appended with no non-empty cell is kept by the model and reads back as a record of `""` values, but the service drops such rows when they come last. For example, posting two records to a sheet with no rows writes two empty rows (the header is `[]`); a later read answers 500 "No data found" in the service, while the model answers 200 with one empty record. The round trip is therefore stated for the store as modelled, not for the service's trimming.
- Bridge.Spreadsheet.PostData: keeps appended all-empty rows in the sheet, for the same reason; the service writes no cell for them, so they do not appear in later reads when they come last.
- Request parameters are modelled as strings (`spreadsheetId`, `sheetName`, `emailId`) or an array of records (`data`), with `None` standing for a field that is absent or `null`. Other JSON types are not modelled. For example, `emailId: 0` or `data: ""` is falsy and answers 400; `emailId: 42` never strictly equals a string cell and answers 404; a truthy `data` that is not an array makes `data.map` throw, and the route answers 500.
- Record values are strings. JSON numbers or booleans in records are not modelled.
- Property names that JavaScript objects treat specially are not modelled. On the write side, `item[header]` finds inherited properties such as `constructor` on a record's prototype. On the read side, assigning a string to `item['__proto__']` is ignored by the prototype setter and creates no field. `RecordOf` treats every header name as an ordinary key.
- The order of keys in a record's JSON object is not modelled, because a record is a `map`.
- The append position: the remote service appends after the table it detects in `A:Z`. The model appends after the last stored row.
- The race between reading the rows and deleting one row, when other requests change the sheet in between. It cannot be expressed in a sequential model.
- Logging with `console.log` and `console.error`.
- test-sheet.js and test-sheets.js. These are HTTP clients that print results. The query parameters test-sheets.js sends are ignored, because the read route always reads the fixed `data` sheet.
