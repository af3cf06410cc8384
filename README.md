# Spare-parts inventory ledger — a Dafny model

This project models the core of a small stock-inventory management system. The
Express back end keeps four MySQL tables: `users`, `sparepart`, `stockin` and
`stockout`. Its route handlers:

- register users;
- add spare parts, rejecting a duplicate (name, category) pair;
- record stock-in and stock-out movements, each of which inserts an event and
  then moves the part's quantity;
- edit and delete stock-out rows;
- answer a daily report that sums the day's movements and lists the parts table.

Three front-end pieces are modelled as well. Two `downloadCSV` functions turn a
report into CSV text, and the sign-up form has a validator.

The model follows the code, which lacks several safeguards a stock ledger
usually has. Each gap is stated by a named member:

- there is no stock-sufficiency check, so a quantity can go negative
  (`LedgerTrace.StockOutCanGoNegative`);
- editing or deleting a stock-out row does not give stock back
  (`LedgerTrace.UpdateBreaksBalance`, `LedgerTrace.DeleteBreaksBalance`);
- stock in and stock out do not check that the part exists: the quantity update
  then matches no row (`LedgerTables.AdjustUnknownId` and the ensures of
  `LedgerStore.Store.StockIn` and `LedgerStore.Store.StockOut`);
- the two queries of a stock movement are not wrapped in a transaction, so a
  failing UPDATE after a successful INSERT leaves the event recorded without its
  quantity change (the ensures of `StockIn` and `StockOut` for `FailsAt(1)`, and
  `LedgerTrace.PartialStockInBreaksBalance`, `LedgerTrace.PartialStockOutBreaksBalance`);
- nothing is locked; the model runs one handler at a time, so interleaved
  requests lie outside it (see "## Left out").

Modules:

- `Js`: JavaScript values and the few built-ins the front end uses. It covers
  truthiness, `String()` of numbers, `Array.prototype.join`,
  `String.prototype.split` and `String.prototype.length` (`Utf16Length`, which
  counts UTF-16 code units, so a character outside the Basic Multilingual Plane
  counts twice). It also holds the cell predicate `CellsFreeOf` that both CSV
  serialisers use to state when their output reads back.
- `LedgerTables`: row types and the effect of each SQL statement on a table.
  Each statement is a function on sequences together with lemmas about it.
- `LedgerReport`: the three aggregate queries of the daily report, their
  `|| 0` defaults, and reference sums over the rows of a day.
- `LedgerStore`: class `Store`, the database. It has one method per modelled handler (the login
  handler only up to its user lookup) and
  an invariant `Valid()` covering unique ids, unique keys, stored totals and
  counter bounds. A `Fault` argument names the query whose callback receives an
  error.
- `LedgerTrace`: the balance between each part's quantity and its recorded
  movements, and where that balance breaks.
- `StockReportCsv`: `downloadCSV` of ReportPage.jsx. It is a loop that grows the
  string.
- `ReportCsv`: `downloadCSV` of Report.jsx. It is a pure map and join.
- `SignupForm`: `validate` and `handleSubmit` of Signup.jsx.

Prices and quantities are integers, for example cents. The password hash is an
opaque string that the caller supplies. A failed hash is `None`.

## Model

| member | source | states |
|---|---|---|
| LedgerStore.Store.Signup | backend-project/server.js:30-49 | a query error gives 500 "Database error", and an existing username gives 400 "User already exists", with the users table unchanged; a failed hash gives 500 "Hashing error" and a failed insert 500 "Signup failed", with nothing added; otherwise exactly one row (next id, username, hash) is appended and the reply is 201 "Signup successful!"; the id counter advances by the rows added; the invariant (unique usernames, ids below the counter) is kept |
| LedgerStore.Store.LookUpUser | backend-project/server.js:52-58 | a query error gives 500 "Database error"; no user with the name gives 404 "User not found"; otherwise the user found is a row with that name, and the only one |
| LedgerStore.Store.AddSparePart | backend-project/server.js:76-93 | a check error gives 500 "Database error during check"; an existing (name, category) gives 400 "Spare part already exists"; an insert error gives 500 "Failed to add spare part"; in each of these the parts table is unchanged; otherwise exactly one row with the next id and the given fields is appended and the reply is 201; the id counter advances by the rows added; unique (name, category) keys are kept |
| LedgerStore.Store.StockIn | backend-project/server.js:96-109 | an insert error gives 500 "Stock in failed" with nothing changed; an update error gives 500 "Failed to update spare quantity" with the event appended and the parts table untouched (the partial write); otherwise the event is appended, the parts table becomes `Adjust(parts, spareId, quantity)`, and the reply is 200 "Stock in successful" |
| LedgerStore.Store.StockOut | backend-project/server.js:112-127 | as StockIn, with the row (next id, spareId, quantity, unitPrice, quantity * unitPrice, date) and `Adjust(parts, spareId, -quantity)`; replies "Stock out failed", "Failed to update spare quantity", 200 "Stock out successful"; the id counter advances by the rows added |
| LedgerStore.Store.UpdateStockOut | backend-project/server.js:151-161 | the parts table is never changed; an error gives 500 "Failed to update stock out record" with the table unchanged; otherwise the table is `Overwrite(outs, id, quantity, unitPrice, date)` and the reply is 200, also for an unknown id |
| LedgerStore.Store.DeleteStockOut | backend-project/server.js:164-170 | the parts table is never changed; an error gives 500 "Failed to delete stock out record"; otherwise the table is `Remove(outs, id)` and the reply is 200, also for an unknown id |
| LedgerStore.Store.GetDailyReport | backend-project/server.js:173-199 | changes nothing; each of the three query errors gives its own 500 message; otherwise 200 with date, the day's stock-in sum, stock-out sum and sales (quantity times unit price), and the parts table as it stands |
| LedgerTables.PartsNamedFinds | backend-project/server.js:79-85 | the duplicate check finds a row exactly when some part has that name and category |
| LedgerTables.UsersNamedFinds | backend-project/server.js:33-36 | the username lookup is non-empty exactly when some user has the name, and its first result is such a user |
| LedgerTables.UsersNamedAfterInsert | backend-project/server.js:40-43 | after a signup whose name was new, looking the name up yields exactly the new user |
| LedgerTables.AdjustAt | backend-project/server.js:98-106 | `quantity = quantity + ?` changes only the rows with that spareId, each by exactly the delta, and keeps the table's length |
| LedgerTables.AdjustUnknownId | backend-project/server.js:98-106 | an update for a spareId no part has changes no part |
| LedgerTables.AdjustTwice | backend-project/server.js:96-127 | two quantity updates of one part compose into one; a stock in then an equal stock out restores the table |
| LedgerTables.AdjustKeepsKeys | backend-project/server.js:96-127 | a quantity update keeps every id, name and category |
| LedgerTables.OverwriteAt | backend-project/server.js:152-159 | editing changes only the rows with that stockoutId, and in them only quantity, unit price, date and total (quantity * unitPrice); the spareId is kept |
| LedgerTables.OverwriteUnknownId | backend-project/server.js:158 | an edit of an unknown id changes nothing |
| LedgerTables.OverwriteRestores | backend-project/server.js:158 | editing a row back to its former values restores the table |
| LedgerTables.OverwriteKeepsPrices | backend-project/server.js:154-158 | after an edit every stored total is still quantity times unit price |
| LedgerTables.RemoveKeeps | backend-project/server.js:166 | after a delete, a row remains exactly when it was there and has another id |
| LedgerTables.RemoveUnknownId | backend-project/server.js:166 | a delete of an unknown id removes nothing |
| LedgerTables.RemoveOne | backend-project/server.js:166 | with unique ids, deleting a present id removes exactly that row and keeps the others in order |
| LedgerTables.RemoveKeepsPrices | backend-project/server.js:166 | a delete keeps every stored total equal to quantity times unit price |
| LedgerTables.RemoveKeepsUniqueIds | backend-project/server.js:166 | a delete keeps stockout ids unique |
| LedgerReport.SqlTotal | backend-project/server.js:191-193 | `SUM(...) \|\| 0` equals the plain sum of the selected column, and 0 when no row is selected |
| LedgerReport.StockInColumnSum | backend-project/server.js:176 | the summed stock-in column is the day's stock-in total |
| LedgerReport.StockOutColumnSum | backend-project/server.js:177 | the summed stock-out quantity column is the day's stock-out total |
| LedgerReport.SalesColumnSum | backend-project/server.js:177 | when every stored total is quantity times unit price, the summed totals are the day's sales |
| LedgerReport.ReportMeaning | backend-project/server.js:176-195 | the report carries exactly the day's stock-in, stock-out and sales sums and the parts table |
| LedgerReport.ReportOfQuietDay | backend-project/server.js:191-193 | a day with no movements reports 0, 0, 0 |
| LedgerReport.StockInOnAppend | backend-project/server.js:99 | a stock in adds its quantity to its own day's total and to no other day's |
| LedgerReport.StockOutOnAppend | backend-project/server.js:117 | a stock out adds its quantity and its sales to its own day only |
| LedgerReport.StockOutOnSplit | backend-project/server.js:177 | day totals of stock out and sales add over concatenated tables |
| LedgerReport.DeleteMovesReport | backend-project/server.js:166 | with unique ids, deleting a row takes its quantity and sales off its own day and leaves other days unchanged |
| LedgerReport.UpdateMovesReport | backend-project/server.js:152-158 | with unique ids, editing a row moves its quantity and sales from its old day to its new one |
| LedgerTrace.StockInForAppend | backend-project/server.js:99 | a stock-in event adds its quantity to its own part's recorded stock in and to no other part's |
| LedgerTrace.StockOutForAppend | backend-project/server.js:117 | the same for stock out |
| LedgerTrace.StockOutForSplit | backend-project/server.js:117 | a part's recorded stock out adds over concatenated tables |
| LedgerTrace.StockInKeepsBalance | backend-project/server.js:99-106 | a completed stock in keeps every part at initial + stock in − stock out |
| LedgerTrace.StockOutKeepsBalance | backend-project/server.js:117-124 | a completed stock out keeps the same balance |
| LedgerTrace.ReplayKeepsBalance | backend-project/server.js:96-127 | any sequence of completed stock ins and stock outs keeps a balance that holds at the start |
| LedgerTrace.LedgerConsistency | backend-project/server.js:96-127 | for every trace of completed stock-in and stock-out calls from tables with no events, each part's quantity is its initial quantity plus its stock in minus its stock out |
| LedgerTrace.StockOutCanGoNegative | backend-project/server.js:117-124 | a stock out larger than the part's stock keeps the balance and leaves the quantity negative |
| LedgerTrace.UpdateBreaksBalance | backend-project/server.js:151-161 | editing a stock-out row of an existing part to another quantity makes the balance fail |
| LedgerTrace.DeleteBreaksBalance | backend-project/server.js:164-170 | deleting a non-zero stock-out row of an existing part makes the balance fail |
| LedgerTrace.PartialStockInBreaksBalance | backend-project/server.js:102-105 | an inserted stock-in event whose quantity update failed (non-zero, existing part) makes the balance fail |
| LedgerTrace.PartialStockOutBreaksBalance | backend-project/server.js:120-123 | the same for stock out |
| StockReportCsv.DownloadCsv | frontend-project/src/pages/systemPages/ReportPage.jsx:34-59 | without report data or `current_stock_levels` the result is the error "No data available to download."; otherwise the file is named `daily_stock_report_<date>.csv`, and the loop builds exactly the prefix followed by each line ended by CR LF |
| StockReportCsv.RowCellTexts | frontend-project/src/pages/systemPages/ReportPage.jsx:42-47 | a row's texts are id, name and quantity as given; a falsy unit price (including 0) becomes "0.00", and a truthy one is kept |
| StockReportCsv.HeaderLineText | frontend-project/src/pages/systemPages/ReportPage.jsx:40-50 | the header line is `ID,Spare Part Name,Quantity,Unit Price` |
| StockReportCsv.LinesSnoc | frontend-project/src/pages/systemPages/ReportPage.jsx:51-54 | each row of the loop appends one line, the item's fields joined by commas |
| StockReportCsv.CrlfReadsBack | frontend-project/src/pages/systemPages/ReportPage.jsx:50-54 | CR LF-terminated lines split at LF into lines each still ending in CR, then an empty rest |
| StockReportCsv.CrlfTerminators | frontend-project/src/pages/systemPages/ReportPage.jsx:50-54 | CR LF-terminated lines hold one LF per line, each right after a CR |
| StockReportCsv.CommaInNameShiftsColumns | frontend-project/src/pages/systemPages/ReportPage.jsx:42-52 | cells are not quoted: every item whose name holds a comma yields a row that splits into more than four fields |
| StockReportCsv.ContentReadsBack | frontend-project/src/pages/systemPages/ReportPage.jsx:40-54 | for fields free of LF, the content starts with `data:text/csv;charset=utf-8,` and then splits at LF into the header, then one line per item in input order; the line of each item whose fields are also free of commas splits at commas into its four fields |
| StockReportCsv.ContentCrlfCount | frontend-project/src/pages/systemPages/ReportPage.jsx:49-54 | for fields free of LF (commas allowed), the content holds items + 1 LFs, each preceded by a CR |
| ReportCsv.DownloadCsv | frontend-project/src/pages/systemPages/Report.jsx:23-40 | no file exactly when there is no report data or no `remainingStock`; otherwise the file is named `daily_report_<date>.csv` and holds the joined lines |
| ReportCsv.HeaderLineText | frontend-project/src/pages/systemPages/Report.jsx:26-34 | the first line is `Spare Part,Category,Quantity,Unit Price` |
| ReportCsv.RowLineReadsBack | frontend-project/src/pages/systemPages/Report.jsx:27-34 | a row with plain fields splits at commas into name, category, quantity and unit price |
| ReportCsv.CsvReadsBack | frontend-project/src/pages/systemPages/Report.jsx:26-34 | for fields free of LF, the file splits at LF into the header line, then one line per item in input order; the line of each item whose fields are also free of commas splits into its four fields |
| ReportCsv.CsvLineFeedCount | frontend-project/src/pages/systemPages/Report.jsx:34 | for fields free of LF (commas allowed), lines are separated, not terminated: the file holds exactly one LF per item |
| ReportCsv.CommaInNameShiftsColumns | frontend-project/src/pages/systemPages/Report.jsx:27-34 | cells are not quoted: every row whose name holds a comma yields a line that splits into more than four fields |
| SignupForm.Validate | frontend-project/src/pages/Signup.jsx:15-28 | the username error is present exactly when the trimmed username is shorter than 3 UTF-16 code units, and the password error exactly when the trimmed password is shorter than 6, each with its own message and no other key; the result is true exactly when both checks pass, and exactly when the map is empty |
| SignupForm.Submit | frontend-project/src/pages/Signup.jsx:36-44 | nothing is sent, and the errors are non-empty, exactly when a check fails; otherwise the form is sent as typed, untrimmed, with no errors |
| SignupForm.BothErrorsAtOnce | frontend-project/src/pages/Signup.jsx:15-27 | both messages are present at once for a short username and a short password |
| SignupForm.AstralUsernameAccepted | frontend-project/src/pages/Signup.jsx:18-27 | length counts UTF-16 code units: a username of two characters beyond U+FFFF has length 4 and passes |
| Js.Utf16LengthOne | frontend-project/src/pages/Signup.jsx:18-22 | `length` of a single character is 2 when it lies beyond U+FFFF (a surrogate pair) and 1 otherwise |
| Js.Utf16LengthAppend | frontend-project/src/pages/Signup.jsx:18-22 | `length` of a concatenation is the sum of the lengths, so with `Utf16LengthOne` every string's count is fixed |
| Js.Utf16LengthBounds | frontend-project/src/pages/Signup.jsx:18-22 | `length` lies between the number of characters and twice that number; it equals the number of characters when every character lies in the Basic Multilingual Plane and exceeds it when some character does not |
| SignupForm.TrimShape | frontend-project/src/pages/Signup.jsx:18-22 | `trim` yields a contiguous part `s[i..j]` of the input that neither starts nor ends with white space, and everything removed (`s[..i]` and `s[j..]`) is white space |
| SignupForm.TrimIgnoresPadding | frontend-project/src/pages/Signup.jsx:18-22 | leading and trailing white space does not count: padding leaves the trimmed text, and so both lengths, unchanged |
| Js.DecimalRoundTrip | frontend-project/src/pages/systemPages/ReportPage.jsx:52 | the decimal text of a number reads back as that number |
| Js.SplitJoin | frontend-project/src/pages/systemPages/Report.jsx:34 | joining cells free of the separator and splitting again returns them |
| Js.JoinSeparatorCount | frontend-project/src/pages/systemPages/Report.jsx:34 | a join of n cells free of the separator holds n − 1 separators |

## Left out

- Express setup, the MySQL connection and the server start (backend-project/server.js:1-26, 203-205) are not modelled. Every database error is a `Fault` argument, and the tables are in-memory sequences.
- MySQL column types, collation and type coercion are not modelled. Names compare by exact equality. `spareId`, `quantity` and prices are integers.
- bcrypt hashing and comparison, and JWT signing (backend-project/server.js:39, 61-68), are foreign libraries. The hash is an opaque string the caller supplies, with `None` for a thrown hashing error.
- Login beyond the user lookup (backend-project/server.js:60-71) is left out: the password comparison, the 401 reply and the token.
- The two list endpoints, `GET /api/spareparts` and `GET /api/stockout` (backend-project/server.js:130-148), are left out. They are read-only queries, and the second one's JOIN and date ordering belong to MySQL.
- `LedgerStore.Store.Signup`, `AddSparePart`, `StockOut`: a failed insert consumes no id. MySQL's AUTO_INCREMENT may consume one, leaving a gap; id gaps are not modelled.
- Concurrency is left out. The handlers' callbacks can interleave with other requests. The model runs one handler at a time, and each query is atomic.
- Floating-point prices and `quantity * unitPrice` in floating point are not modelled; prices are integers.
- `LedgerStore.Store.StockOut`: with integer prices, `totalPrice` is the exact product. JavaScript's floating-point rounding of the product is not captured.
- `Js.IntToText`: it gives only the text of integer numbers. JavaScript's `String()` of fractional and exponent-form numbers is not captured.
- The React rendering, hooks and state, the HTTP calls, and `localStorage` are left out.
- The DOM and Blob download and `encodeURI` (ReportPage.jsx:56-62, Report.jsx:35-41) are left out. The model stops at the file name and the unencoded content.
- The form and list page components and the other front-end pages are left out. They only forward form fields.
- `SignupForm.Submit`: it stops at the request. The `/auth/register` call, its error display and the navigation are left out.
- The code has none of the safeguards a stock ledger usually has, and the model follows the code:
  - there is no stock-sufficiency check and no locking;
  - editing or deleting a stock-out row does not reverse its effect on stock, and an unknown id still succeeds;
  - stock in and stock out answer 200;
  - the front end posts sign-up to `/auth/register`, while the server route is `/api/signup`;
  - ReportPage.jsx reads `current_stock_levels` and `unit_price`, but the server sends `remainingStock` with `unitPrice`, so that page always takes its no-data branch against this server.
- Neither CSV serialiser quotes or escapes cells. The read-back lemmas therefore require fields free of LF for the line split, and free of commas for an item's comma split. `ReportCsv.CommaInNameShiftsColumns` and `StockReportCsv.CommaInNameShiftsColumns` show what happens otherwise.
