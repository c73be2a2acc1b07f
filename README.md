# MCP playground servers, modelled in Dafny

This project models the core of two small MCP ("Model Context Protocol")
servers that answer JSON-RPC 2.0 `tools/list` and `tools/call` requests over
HTTP.

- **The calculator server** (`server.py`) has five tools: `plus`, `sub`, `mul`,
  `div` and `history`. It also has direct REST endpoints `/plus`, `/sub`, `/mul`,
  `/div` and `/history`. Each successful calculation is appended to a CSV
  table, the calculation ledger. `history` reads the newest rows back.
- **The Jedox server** (`jedox_server.py`) has six tools that call a Jedox
  analytics service. They list databases, cubes and dimensions, and they read,
  write and range-read cells. The server turns what the service returns into
  text.

The modules:

- `Rpc` (rpc.dfy) is the vocabulary both servers share:
  - how a JSON member is read: missing, `null` or a value;
  - the error codes of section 5.1 of the JSON-RPC 2.0 specification (-32601, -32602, -32603);
  - tool descriptors;
  - the response envelope: HTTP status, `result` or `error`, and the echoed `id`.
- `Ledger` (ledger.dfy) is the CSV file, as the class `CsvLedger`.
  - Its field `file: Option<seq<Row>>` is `None` while the file does not exist.
  - The methods `InitCsv`, `SaveCalculation` and `GetCalculationHistory` update it in place.
  - `NewestFirst` is the history loop over `reversed(rows[-limit:])`, with Python's slice semantics.
  - The lemmas cover id numbering and the history's length and order.
- `Calculator` (calculator.dfy) covers the calculator server:
  - `RouteOf` is a pure decision procedure from the request to an envelope kind, an error code and an HTTP status.
  - `HandleMcp` carries out that decision against the ledger.
  - `RestDecision` and `RestEndpoint` are the direct endpoints.
- `Lines` (lines.dfy) holds the text built one line per item (`RenderLines`, a loop) and Python's `str` of a natural number.
- `Jedox` (jedox.dfy) covers the Jedox server:
  - Each helper maps an abstract gateway `Outcome` (`Ok(response)` or `Fail(message)`) to its value, with a default on failure.
  - `ToolText` and `Respond` state what the server answers.
  - `RunTool` and `HandleMcp` build the same answer with the source's loops.

Three behaviours of the code are modelled as written, where a reader of the
design or of the tests might expect otherwise.

- **Operands are checked first.** In `tools/call`, the check that `a` and `b`
  are present (server.py:194-206) runs before the tool name is looked at.
  - So `history` called with only `limit` fails with -32602 and HTTP 400.
  - The test at test_server.py:235-251 expects it to succeed.
  - Unknown tool names without operands also get -32602, not -32601.
  - See `MissingOperandRejectedFirst` and `HistorySchemaDisagreesWithValidation`.
- **History follows Python's slicing.** It returns `reversed(rows[-limit:])`.
  - A limit of 0 returns every row, because `rows[-0:]` is `rows[0:]`. It does not return none.
  - A negative limit drops rows from the front.
  - See `RecentShape` and `HistoryLength`.
- **The next id depends on the last row only.** It is the last row's id plus 1, not the largest id plus 1.
  - The two agree whenever the ids increase, and they do when only `save_calculation` writes (`FreshTableNumbering`).

## Model

| member | source | states |
|---|---|---|
| `Ledger.Initialized` | server.py:16-22 | After `init_csv` the file exists and holds the same data rows as before (none if it was missing). An existing file is unchanged, so a second call changes nothing. |
| `Ledger.CsvLedger.InitCsv` | server.py:16-22 | The method form of `Initialized`. A missing file becomes header-only, and an existing file is left exactly as it was. |
| `Ledger.Appended` | server.py:29-49 | Saving adds exactly one row at the end. Every earlier row is unchanged. The new row carries id `NextId` (last id + 1, or 1 when there are no rows), the operation, both operands, the result and the timestamp. |
| `Ledger.CsvLedger.SaveCalculation` | server.py:24-51 | The file afterwards is the old rows (none if the file was missing) with exactly the `Appended` row added. |
| `Ledger.NextIdExceedsAll` | server.py:30-37 | When ids increase along the rows, the id given to the next row is greater than every existing id. |
| `Ledger.AppendKeepsIdsIncreasing` | server.py:30-49 | Saving keeps ids strictly increasing. |
| `Ledger.SaveAllNumbersFromOne` | server.py:30-49 | A table numbered 1..n stays numbered 1..n+k after k saves in a row. Each save adds one row and keeps the earlier rows as they were. |
| `Ledger.FreshTableNumbering` | server.py:16-49 | When the file starts missing or empty and only `save_calculation` writes, the rows hold ids 1..k in order, so the ids strictly increase. |
| `Ledger.SliceStart` | server.py:66 | Python's start index for `s[k:]` never exceeds the length. |
| `Ledger.Reversed` | server.py:66 | `reversed` keeps the length. |
| `Ledger.ReversedAt` | server.py:66 | Element i of the reversal is element n-1-i of the input. |
| `Ledger.RecentShape` | server.py:55-76 | `reversed(rows[-limit:])` holds `HistoryLength` rows: min(limit, n) for limit ≥ 1, all n rows for limit 0, and max(0, n + limit) for a negative limit. Its entry i is row n-1-i, so the newest row comes first. |
| `Ledger.RecentIsPrefixOfAll` | server.py:66 | For limit ≥ 1, the history is the first min(limit, n) entries of the full newest-first history. |
| `Ledger.NewestFirst` | server.py:60-74 | The loop that appends each row of `reversed(rows[-limit:])` returns exactly `Recent(rows, limit)`. |
| `Ledger.CsvLedger.GetCalculationHistory` | server.py:55-79 | Creates the file if it is missing and otherwise changes nothing. Returns `Recent(rows, limit)`, or an empty history when the limit is not an integer (the slice raises and the error is swallowed). |
| `Calculator.Apply` | server.py:269 | The `div` result is the exact quotient: result × b = a. |
| `Calculator.Registry` | server.py:82-168 | `tools/list` publishes exactly the five tools plus, sub, mul, div, history, in that order. Each has the schema shown in the source, and `history` has no `required` list. |
| `Calculator.LookupMatchesRegistry` | server.py:209-312 | A name reaches a handler exactly when it is one of the registered tool names. |
| `Calculator.LookupOpName` | server.py:209-257 | Each operation's name dispatches to that operation, and the same name tags its ledger row. |
| `Calculator.RouteOf` | server.py:170-333 | Every rejection uses a reserved JSON-RPC code and status 400 or 500. Status 500 only comes with -32603; `ExceptionPathRejected` shows that the exception path produces it. A computed division never has a zero divisor. |
| `Calculator.MissingOperandRejectedFirst` | server.py:193-206 | With `a` or `b` missing or null, `tools/call` answers -32602 "Missing required parameters: a and b" with status 400, whatever the tool name: `history` and unknown names included. |
| `Calculator.HistorySchemaDisagreesWithValidation` | server.py:155-206 | `history` declares no required arguments, yet a call that passes only `limit` is rejected. |
| `Calculator.ComputeExactly` | server.py:194-283 | Both directions: a call computes exactly when both operands are present (zero included, since the check is `is None`), the name is an arithmetic tool, and it is not a division by zero. It then computes that operation on those operands. |
| `Calculator.DivisionByZeroRejected` | server.py:257-267 | `div` with b = 0 answers -32603 "Division by zero is not allowed" with status 400. |
| `Calculator.UnknownToolRejected` | server.py:304-312 | With both operands present, an unregistered or missing name answers -32601 "Unknown tool: <name>" with status 400. |
| `Calculator.UnknownMethodRejected` | server.py:314-322 | Any method other than `tools/list` and `tools/call` answers -32601 "Method not found: <method>" with status 400. A missing method reads as "None". |
| `Calculator.HistoryLimitDefault` | server.py:284-286 | For any present operands, `history` uses limit 10 when `limit` is missing. An explicit null limit reaches the ledger as a non-integer. |
| `Calculator.ExceptionPathRejected` | server.py:324-333 | An unreadable body, or `params` that are not an object in `tools/call`, answers -32603 with the exception's message and status 500. The id is null for an unreadable body and the request's id otherwise. |
| `Calculator.HistoryToolZeroLimitListsAll` | server.py:284-302 | The `history` tool with limit 0 on a non-empty ledger lists every row, newest first. |
| `Calculator.HandleMcp` | server.py:170-333 | Every reply echoes the request id, or null when the id is absent or the body is unreadable, and carries the route's status. A computation appends exactly one row tagged with the operation and answers its result. `history` creates the file if needed and answers the newest-first listing, or "no history" when it is empty. Every other route leaves the ledger unchanged. |
| `Calculator.RestDecision` | server.py:349-442 | The direct endpoints compute exactly when both operands are present and it is not a division by zero, and they echo the operation and operands. A zero divisor is refused only for `/div`. |
| `Calculator.RestEndpoint` | server.py:349-442 | A direct endpoint appends one ledger row exactly when it computes. Missing operands and a zero divisor (status 400) save nothing. |
| `Calculator.RestAgreesWithMcp` | server.py:349-368 | A direct endpoint and `tools/call` with the same operation agree on whether they compute and on the result. They also agree on when operands are missing. |
| `Calculator.HistoryEndpoint` | server.py:444-451 | `GET /history` returns `Recent(rows, limit)` and `count` equal to its length, which is `HistoryLength(n, limit)`. Without a `limit` query the limit is 10. |
| `Lines.RenderLines` | jedox_server.py:378-380 | The `result_text +=` loop yields the header followed by one rendered line per item, in the items' order. |
| `Lines.JoinLinesAppend` | jedox_server.py:379-380 | The lines for `xs + ys` are the lines for `xs` followed by those for `ys`. |
| `Lines.OneLinePerItem` | jedox_server.py:379-380 | When each rendered line holds one line break, the joined text holds exactly one line break per item. |
| `Lines.ListingLineCount` | jedox_server.py:378-380 | A one-line header followed by the item lines has exactly items + 1 line breaks. |
| `Lines.Decimal` | jedox_server.py:488 | `str(n)` is a non-empty string of decimal digits with no leading zero. |
| `Lines.DecimalRoundTrip` | jedox_server.py:488 | The digits of `str(n)` read back as n. |
| `Jedox.FailuresBecomeDefaults` | jedox_server.py:65-223 | On any failure the helpers return their defaults: `[]` from the list helpers and the range read, `{"error": msg}` from the cell read, and `{"status": "error", "error": msg}` from the cell write. |
| `Jedox.ReadCellFirstValue` | jedox_server.py:140-158 | A successful read returns the first returned cell's value, or None when no cell came back. It never returns the error dictionary. |
| `Jedox.Registry` | jedox_server.py:230-338 | `tools/list` publishes exactly six tools, in this order: jedox_list_databases, jedox_list_cubes, jedox_list_dimensions, jedox_read_cell, jedox_write_cell, jedox_read_range. Each has the schema shown in the source. |
| `Jedox.RegistryMatchesRouting` | jedox_server.py:369-515 | Both directions: a `tools/call` name is reported "not found" exactly when it is missing or not registered. Whatever the gateway returns, the answer is then -32601 "Tool '<name>' not found". |
| `Jedox.UnknownMethodNotFound` | jedox_server.py:517-527 | Any other method answers -32601 "Method '<method>' not found". |
| `Jedox.ResponseIds` | jedox_server.py:353-538 | Every response has status 200. A request that did not raise echoes its id: 1 when the id is missing, null when it is null. The exception path answers -32603 with id 1 whatever the request's id. |
| `Jedox.FailuresStayInBand` | jedox_server.py:375-503 | Every tool call answers with a text result, never an error envelope, whatever the gateway returned. |
| `Jedox.ReadCellErrorText` | jedox_server.py:437-442 | The cell-read text starts with "Error: " exactly when the gateway call failed, and is then "Error: <msg>". |
| `Jedox.WriteCellStatusText` | jedox_server.py:462-467 | The cell-write text starts with "Success: " exactly when the write succeeded, and with "Error: " exactly when it failed. |
| `Jedox.EntryLineIsOneLine` | jedox_server.py:380 | A database, cube or dimension line is one line when the name and id texts contain no line break. |
| `Jedox.CellLineIsOneLine` | jedox_server.py:490-492 | A range line is one line when the coordinates and value texts contain no line break. |
| `Jedox.DatabasesTextLines` | jedox_server.py:376-380 | The databases text is the header plus exactly one line per returned database. |
| `Jedox.CubesTextLines` | jedox_server.py:394-399 | The cubes text is the header plus exactly one line per returned cube. |
| `Jedox.DimensionsTextLines` | jedox_server.py:413-418 | The dimensions text is the header plus exactly one line per returned dimension. |
| `Jedox.RangeTextLines` | jedox_server.py:481-492 | The read-range text is the header plus exactly one line per returned cell. |
| `Jedox.RangeHeaderCount` | jedox_server.py:486-488 | The read-range text starts with "Read N cells:\n", and N reads back as the number of returned cells. |
| `Jedox.RunTool` | jedox_server.py:375-503 | Running a tool (helper call plus line-by-line text building) yields exactly `ToolText`. |
| `Jedox.HandleMcp` | jedox_server.py:344-538 | The handler's reply is exactly `Respond`: the registry, the tool text, a not-found error, or the exception envelope. |

## Left out

- FastAPI and uvicorn wiring, the `/` and `/health` endpoints, the Jedox `/tools` endpoint (it returns the registry), `__main__` printing and logging.
- JSON decoding. A request arrives already decoded, as the members the handlers read.
  - In `server.py`, a body that parses but is not an object makes the exception handler raise again (`data.get` on a non-dict). The framework's plain 500 reply for that case is not modelled.
  - In `server.py`, an `arguments` value that is not an object is folded into `ParamsNotObject`.
- Operands are integers, and results are reals: the `div` result is the exact quotient.
  - Python floats, non-numeric operands (such as strings, where `a + b` may raise or concatenate) and booleans are not modelled.
  - The digits of numbers in the response texts are not modelled: `CallText` keeps the numbers, not their rendering.
  - The history listing's line format (server.py:287-290) is not rendered as text.
- The CSV file is modelled as its typed rows. CSV quoting and parsing, malformed rows and OS errors are left out.
  - `save_calculation` swallows its exceptions (server.py:52-53), so a failed save is a no-op. That failure is not modelled.
  - `get_calculation_history` returns `[]` on an exception (server.py:77-79). Only the non-integer limit is modelled.
- `datetime.now().isoformat()` is the `now` parameter.
- Concurrency. The read-last-id-then-append sequence has no lock, and races are not a sequential property.
- The Jedox HTTP calls, URL construction, bearer headers, environment configuration and `jedox_login`. Each helper's exchange is an abstract `Outcome` given per request in `Gateway`.
  - In `jedox_read_cell`, `jedox_write_cell` and `jedox_read_range` the arguments `database`, `cube` and `coordinates_list` only reach URLs and payloads, so `ToolCall` keeps only the arguments that appear in the result texts (`database` is kept for the cubes and dimensions listings, whose headers print it).
  - Gateway responses of the wrong JSON shape (for example, a string where a list is expected) are not modelled.
- Values are modelled as text. So a cell value that is itself a dictionary with an `"error"` key, which the server would report as an error (jedox_server.py:439), is not modelled.
