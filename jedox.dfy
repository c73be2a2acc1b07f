/**
 * The Jedox MCP server: a six-tool registry, the `/mcp` dispatcher, and
 * the helpers that call the Jedox REST API. Each helper's HTTP exchange is
 * an abstract `Outcome`: the decoded response on success, or the message
 * of whatever it raised. Tool results are texts built line by line.
 */
module Jedox {
  import opened Rpc
  import opened Lines

  /** What one gateway call produced: the decoded JSON response, or the message of the exception it raised. */
  datatype Outcome<+T> = Ok(data: T) | Fail(message: string)

  /** A database, cube or dimension entry; `name` and `id` are the texts of `entry.get('name')` and `entry.get('id')`. */
  datatype Entry = Entry(name: Option<string>, id: Option<string>)

  /**
   * A returned cell: `coordinates` as a member that may be missing (then it
   * reads as `[]`), and the text of `cell.get("value")`.
   */
  datatype Cell = Cell(coordinates: Field<string>, value: Option<string>)

  /**
   * The responses of the Jedox service to this request, one per helper.
   * A list is None when its key is missing or null.
   */
  datatype Gateway = Gateway(
    databases: Outcome<Option<seq<Entry>>>,
    cubes: Outcome<Option<seq<Entry>>>,
    dimensions: Outcome<Option<seq<Entry>>>,
    cell: Outcome<Option<seq<Cell>>>,
    write: Outcome<()>,
    range: Outcome<Option<seq<Cell>>>)

  /**
   * `list_databases`, `list_cubes`, `list_dimensions` and `read_jedox_range`:
   * the list under the response key, and the empty list when the key is
   * missing or null or the call failed.
   */
  function Listed<T>(outcome: Outcome<Option<seq<T>>>): seq<T> {
    if outcome.Ok? && outcome.data.Some? then outcome.data.value else []
  }

  /** The result of `read_jedox_cell`: a value (None when there is none) or the `{"error": msg}` dictionary. */
  datatype CellRead = CellValue(value: Option<string>) | CellError(message: string)

  function ReadJedoxCell(outcome: Outcome<Option<seq<Cell>>>): CellRead {
    match outcome
    case Fail(m) => CellError(m)
    case Ok(cells) => if cells.Some? && |cells.value| > 0 then CellValue(cells.value[0].value) else CellValue(None)
  }

  /** The status dictionary of `write_jedox_cell`. */
  datatype WriteStatus = Written(message: string) | WriteFailed(error: string)

  function WriteJedoxCell(outcome: Outcome<()>, coordinates: Option<string>, value: Option<string>): WriteStatus {
    if outcome.Ok? then Written("Successfully wrote " + Show(value) + " to cell " + Show(coordinates))
    else WriteFailed(outcome.message)
  }

  /** On any failure every helper returns its default: an empty list, the error dictionary, or an error status. */
  lemma FailuresBecomeDefaults<T>(message: string, coordinates: Option<string>, value: Option<string>)
    ensures Listed<T>(Fail(message)) == []
    ensures ReadJedoxCell(Fail(message)) == CellError(message)
    ensures WriteJedoxCell(Fail(message), coordinates, value) == WriteFailed(message)
  {
  }

  /** A successful cell read yields the first returned cell's value, and no value when no cell came back. */
  lemma ReadCellFirstValue(cells: Option<seq<Cell>>)
    ensures cells.Some? && cells.value != [] ==> ReadJedoxCell(Ok(cells)) == CellValue(cells.value[0].value)
    ensures cells.None? || cells.value == [] ==> ReadJedoxCell(Ok(cells)) == CellValue(None)
    ensures !ReadJedoxCell(Ok(cells)).CellError?
  {
  }

  function Described(name: string, kind: JsonType, description: string): Property {
    Property(name, kind, Some(description))
  }

  /** The `tools` list, in declaration order. */
  function Registry(): (tools: seq<Tool>)
    ensures Names(tools) == ["jedox_list_databases", "jedox_list_cubes", "jedox_list_dimensions",
                             "jedox_read_cell", "jedox_write_cell", "jedox_read_range"]
  {
    [ Tool("jedox_list_databases", "List all available Jedox databases", [], Some([])),
      Tool("jedox_list_cubes", "List all cubes in a specific Jedox database",
           [Described("database", StringType, "Database name")], Some(["database"])),
      Tool("jedox_list_dimensions", "List all dimensions in a Jedox database",
           [Described("database", StringType, "Database name")], Some(["database"])),
      Tool("jedox_read_cell", "Read a single cell value from a Jedox Cube",
           [ Described("database", StringType, "Database name"),
             Described("cube", StringType, "Cube name"),
             Described("coordinates", ArrayType(StringType), "Cell coordinates, e.g., ['2024', 'Beijing', 'Revenue']") ],
           Some(["database", "cube", "coordinates"])),
      Tool("jedox_write_cell", "Write a value to a Jedox Cube cell (\U{26A0}\U{FE0F} This will modify the database)",
           [ Described("database", StringType, "Database name"),
             Described("cube", StringType, "Cube name"),
             Described("coordinates", ArrayType(StringType), "Cell coordinates"),
             Described("value", NumberType, "Value to write") ],
           Some(["database", "cube", "coordinates", "value"])),
      Tool("jedox_read_range", "Read multiple cells from a Jedox Cube",
           [ Property("database", StringType, None),
             Property("cube", StringType, None),
             Described("coordinates_list", ArrayType(ArrayType(StringType)), "List of coordinate arrays") ],
           Some(["database", "cube", "coordinates_list"])) ]
  }

  /** `arguments` of a call: not an object (reading a member raises), or the texts of the members the tools read. */
  datatype Args =
    | ArgsNotObject(error: string)
    | ArgsObject(database: Option<string>, cube: Option<string>, coordinates: Option<string>, value: Option<string>, coordinatesList: Option<string>)

  datatype Params =
    | ParamsNotObject(error: string)
    | ParamsObject(name: Option<string>, arguments: Args)

  /** A request body: unreadable (not JSON, or not an object), or its `method`, `params` and `id` members. */
  datatype Body =
    | Unreadable(error: string)
    | Parsed(rpcMethod: Option<string>, params: Params, id: Field<Id>)

  /** A tool call with the arguments that reach its result text. */
  datatype ToolCall =
    | ListDatabases
    | ListCubes(database: Option<string>)
    | ListDimensions(database: Option<string>)
    | ReadCell(coordinates: Option<string>)
    | WriteCell(coordinates: Option<string>, value: Option<string>)
    | ReadRange

  datatype Route = ListTools | CallTool(call: ToolCall) | NotFound(message: string) | Crash(message: string)

  /** How `handle_mcp` decides what to do with a request. */
  function RouteOf(body: Body): Route {
    match body
    case Unreadable(e) => Crash(e)
    case Parsed(rpcMethod, params, _) =>
      if rpcMethod == Some("tools/list") then ListTools
      else if rpcMethod == Some("tools/call") then
        match params
        case ParamsNotObject(e) => Crash(e)
        case ParamsObject(name, args) => CallRoute(name, args)
      else NotFound("Method '" + Show(rpcMethod) + "' not found")
  }

  /** `tools/call`: `jedox_list_databases` reads no arguments; the other tools read theirs first. */
  function CallRoute(name: Option<string>, args: Args): Route {
    if name == Some("jedox_list_databases") then CallTool(ListDatabases)
    else if name.None? || name.value !in Names(Registry()) then NotFound("Tool '" + Show(name) + "' not found")
    else
      match args
      case ArgsNotObject(e) => Crash(e)
      case ArgsObject(database, _, coordinates, value, _) =>
        if name == Some("jedox_list_cubes") then CallTool(ListCubes(database))
        else if name == Some("jedox_list_dimensions") then CallTool(ListDimensions(database))
        else if name == Some("jedox_read_cell") then CallTool(ReadCell(coordinates))
        else if name == Some("jedox_write_cell") then CallTool(WriteCell(coordinates, value))
        else CallTool(ReadRange)
  }

  /** The id of a response: the request's `id`, 1 when it is missing, null when it is null. */
  function RequestId(body: Body): Option<Id> {
    if body.Parsed? then GetWithDefault(body.id, IntId(1)) else Some(IntId(1))
  }

  function EntryLine(e: Entry): string {
    "- " + Show(e.name) + " (ID: " + Show(e.id) + ")\n"
  }

  function NameLine(e: Entry): string {
    "- " + Show(e.name) + "\n"
  }

  function CoordinatesText(f: Field<string>): string {
    match f
    case Absent => "[]"
    case Null => "None"
    case Given(s) => s
  }

  function CellLine(c: Cell): string {
    "- " + CoordinatesText(c.coordinates) + ": " + Show(c.value) + "\n"
  }

  function CubesHeader(database: Option<string>): string {
    "Cubes in database '" + Show(database) + "':\n"
  }

  function DimensionsHeader(database: Option<string>): string {
    "Dimensions in database '" + Show(database) + "':\n"
  }

  function RangeHeader(count: nat): string {
    "Read " + Decimal(count) + " cells:\n"
  }

  function CellText(coordinates: Option<string>, read: CellRead): string {
    match read
    case CellError(m) => "Error: " + m
    case CellValue(v) => "Cell value at " + Show(coordinates) + ":\n" + Show(v)
  }

  function WriteText(status: WriteStatus): string {
    match status
    case Written(m) => "Success: " + m
    case WriteFailed(e) => "Error: " + e
  }

  /** The text a tool call returns, given the gateway's responses. */
  function ToolText(call: ToolCall, gw: Gateway): string {
    match call
    case ListDatabases => "Available Jedox Databases:\n" + JoinLines(Listed(gw.databases), EntryLine)
    case ListCubes(database) => CubesHeader(database) + JoinLines(Listed(gw.cubes), EntryLine)
    case ListDimensions(database) => DimensionsHeader(database) + JoinLines(Listed(gw.dimensions), NameLine)
    case ReadCell(coordinates) => CellText(coordinates, ReadJedoxCell(gw.cell))
    case WriteCell(coordinates, value) => WriteText(WriteJedoxCell(gw.write, coordinates, value))
    case ReadRange => RangeHeader(|Listed(gw.range)|) + JoinLines(Listed(gw.range), CellLine)
  }

  /** The response `handle_mcp` gives; every response has HTTP status 200. */
  function Respond(body: Body, gw: Gateway): Reply<string> {
    match RouteOf(body)
    case ListTools => Reply(200, ToolList(Registry()), RequestId(body))
    case CallTool(call) => Reply(200, Content(ToolText(call, gw)), RequestId(body))
    case NotFound(message) => Reply(200, Error(MethodNotFound, message), RequestId(body))
    case Crash(message) => Reply(200, Error(InternalError, message), Some(IntId(1)))
  }

  /** Runs one tool: calls its helper and builds the text, appending one line per returned item. */
  method RunTool(call: ToolCall, gw: Gateway) returns (text: string)
    ensures text == ToolText(call, gw)
  {
    match call {
      case ListDatabases =>
        text := RenderLines("Available Jedox Databases:\n", Listed(gw.databases), EntryLine);
      case ListCubes(database) =>
        text := RenderLines(CubesHeader(database), Listed(gw.cubes), EntryLine);
      case ListDimensions(database) =>
        text := RenderLines(DimensionsHeader(database), Listed(gw.dimensions), NameLine);
      case ReadCell(coordinates) =>
        text := CellText(coordinates, ReadJedoxCell(gw.cell));
      case WriteCell(coordinates, value) =>
        text := WriteText(WriteJedoxCell(gw.write, coordinates, value));
      case ReadRange =>
        var cells := Listed(gw.range);
        text := RenderLines(RangeHeader(|cells|), cells, CellLine);
    }
  }

  /** `handle_mcp`. */
  method HandleMcp(body: Body, gw: Gateway) returns (reply: Reply<string>)
    ensures reply == Respond(body, gw)
  {
    match RouteOf(body) {
      case ListTools =>
        reply := Reply(200, ToolList(Registry()), RequestId(body));
      case CallTool(call) =>
        var text := RunTool(call, gw);
        reply := Reply(200, Content(text), RequestId(body));
      case NotFound(message) =>
        reply := Reply(200, Error(MethodNotFound, message), RequestId(body));
      case Crash(message) =>
        reply := Reply(200, Error(InternalError, message), Some(IntId(1)));
    }
  }

  /**
   * Every response has status 200. A request that did not raise echoes its
   * id, or 1 when the id is missing; one that raised answers internal error
   * with id 1, whatever id the request carried.
   */
  lemma ResponseIds(body: Body, gw: Gateway)
    ensures Respond(body, gw).status == 200
    ensures !RouteOf(body).Crash? && body.Parsed? && body.id.Given? ==> Respond(body, gw).id == Some(body.id.value)
    ensures !RouteOf(body).Crash? && body.Parsed? && body.id.Absent? ==> Respond(body, gw).id == Some(IntId(1))
    ensures !RouteOf(body).Crash? && body.Parsed? && body.id.Null? ==> Respond(body, gw).id == None
    ensures RouteOf(body).Crash? ==>
      Respond(body, gw).id == Some(IntId(1)) && Respond(body, gw).payload.Error? && Respond(body, gw).payload.code == InternalError
  {
  }

  /** Gateway failures never reach the error channel: every tool call answers with a text result. */
  lemma FailuresStayInBand(body: Body, gw: Gateway)
    requires RouteOf(body).CallTool?
    ensures Respond(body, gw).payload.Content?
  {
  }

  function CallBody(name: Option<string>, args: Args, id: Field<Id>): Body {
    Parsed(Some("tools/call"), ParamsObject(name, args), id)
  }

  /** Exactly the registered names are dispatched to a tool; any other name is reported as not found. */
  lemma RegistryMatchesRouting(name: Option<string>, args: Args, id: Field<Id>, gw: Gateway)
    ensures RouteOf(CallBody(name, args, id)).NotFound? <==> name.None? || name.value !in Names(Registry())
    ensures RouteOf(CallBody(name, args, id)).NotFound? ==>
      Respond(CallBody(name, args, id), gw).payload == Error(MethodNotFound, "Tool '" + Show(name) + "' not found")
  {
  }

  lemma UnknownMethodNotFound(rpcMethod: Option<string>, params: Params, id: Field<Id>, gw: Gateway)
    requires rpcMethod != Some("tools/list") && rpcMethod != Some("tools/call")
    ensures Respond(Parsed(rpcMethod, params, id), gw).payload == Error(MethodNotFound, "Method '" + Show(rpcMethod) + "' not found")
  {
  }

  predicate StartsWith(s: string, prefix: string) {
    |prefix| <= |s| && s[..|prefix|] == prefix
  }

  /** A cell read reports "Error: ..." exactly when the gateway call failed. */
  lemma ReadCellErrorText(coordinates: Option<string>, gw: Gateway)
    ensures StartsWith(ToolText(ReadCell(coordinates), gw), "Error: ") <==> gw.cell.Fail?
    ensures gw.cell.Fail? ==> ToolText(ReadCell(coordinates), gw) == "Error: " + gw.cell.message
  {
    var text := ToolText(ReadCell(coordinates), gw);
    if gw.cell.Ok? {
      assert text[0] == 'C';
    }
  }

  /** A cell write reports "Success: ..." exactly when the gateway accepted it, and "Error: ..." otherwise. */
  lemma WriteCellStatusText(coordinates: Option<string>, value: Option<string>, gw: Gateway)
    ensures StartsWith(ToolText(WriteCell(coordinates, value), gw), "Success: ") <==> gw.write.Ok?
    ensures StartsWith(ToolText(WriteCell(coordinates, value), gw), "Error: ") <==> gw.write.Fail?
  {
    var text := ToolText(WriteCell(coordinates, value), gw);
    if gw.write.Ok? {
      assert text[0] == 'S';
    } else {
      assert text[0] == 'E';
    }
  }

  /** The texts of the entry and cell fields contain no line break. */
  predicate PlainEntries(entries: seq<Entry>) {
    forall i :: 0 <= i < |entries| ==> HasNoNewline(Show(entries[i].name)) && HasNoNewline(Show(entries[i].id))
  }

  predicate PlainCells(cells: seq<Cell>) {
    forall i :: 0 <= i < |cells| ==> HasNoNewline(CoordinatesText(cells[i].coordinates)) && HasNoNewline(Show(cells[i].value))
  }

  lemma EntryLineIsOneLine(e: Entry)
    requires HasNoNewline(Show(e.name)) && HasNoNewline(Show(e.id))
    ensures NewlineCount(EntryLine(e)) == 1 && NewlineCount(NameLine(e)) == 1
  {
    assert EntryLine(e) == ("- " + Show(e.name) + " (ID: " + Show(e.id) + ")") + "\n";
    TerminatedLine("- " + Show(e.name) + " (ID: " + Show(e.id) + ")");
    assert NameLine(e) == ("- " + Show(e.name)) + "\n";
    TerminatedLine("- " + Show(e.name));
  }

  lemma CellLineIsOneLine(c: Cell)
    requires HasNoNewline(CoordinatesText(c.coordinates)) && HasNoNewline(Show(c.value))
    ensures NewlineCount(CellLine(c)) == 1
  {
    assert CellLine(c) == ("- " + CoordinatesText(c.coordinates) + ": " + Show(c.value)) + "\n";
    TerminatedLine("- " + CoordinatesText(c.coordinates) + ": " + Show(c.value));
  }

  lemma EntriesAreLines(entries: seq<Entry>)
    requires PlainEntries(entries)
    ensures forall i :: 0 <= i < |entries| ==> NewlineCount(EntryLine(entries[i])) == 1 && NewlineCount(NameLine(entries[i])) == 1
  {
    forall i | 0 <= i < |entries|
      ensures NewlineCount(EntryLine(entries[i])) == 1 && NewlineCount(NameLine(entries[i])) == 1
    {
      EntryLineIsOneLine(entries[i]);
    }
  }

  /*
   * The listing texts are a one-line header and exactly one line per
   * returned item, provided no returned text contains a line break; the
   * lines follow the items' order by the definition of `JoinLines`.
   */

  lemma DatabasesTextLines(gw: Gateway)
    requires PlainEntries(Listed(gw.databases))
    ensures NewlineCount(ToolText(ListDatabases, gw)) == |Listed(gw.databases)| + 1
  {
    assert "Available Jedox Databases:\n" == "Available Jedox Databases:" + "\n";
    TerminatedLine("Available Jedox Databases:");
    EntriesAreLines(Listed(gw.databases));
    ListingLineCount("Available Jedox Databases:\n", Listed(gw.databases), EntryLine);
  }

  lemma CubesTextLines(gw: Gateway, database: Option<string>)
    requires HasNoNewline(Show(database)) && PlainEntries(Listed(gw.cubes))
    ensures NewlineCount(ToolText(ListCubes(database), gw)) == |Listed(gw.cubes)| + 1
  {
    assert CubesHeader(database) == ("Cubes in database '" + Show(database) + "':") + "\n";
    TerminatedLine("Cubes in database '" + Show(database) + "':");
    EntriesAreLines(Listed(gw.cubes));
    ListingLineCount(CubesHeader(database), Listed(gw.cubes), EntryLine);
  }

  lemma DimensionsTextLines(gw: Gateway, database: Option<string>)
    requires HasNoNewline(Show(database)) && PlainEntries(Listed(gw.dimensions))
    ensures NewlineCount(ToolText(ListDimensions(database), gw)) == |Listed(gw.dimensions)| + 1
  {
    assert DimensionsHeader(database) == ("Dimensions in database '" + Show(database) + "':") + "\n";
    TerminatedLine("Dimensions in database '" + Show(database) + "':");
    EntriesAreLines(Listed(gw.dimensions));
    ListingLineCount(DimensionsHeader(database), Listed(gw.dimensions), NameLine);
  }

  lemma RangeTextLines(gw: Gateway)
    requires PlainCells(Listed(gw.range))
    ensures NewlineCount(ToolText(ReadRange, gw)) == |Listed(gw.range)| + 1
  {
    var cells := Listed(gw.range);
    assert RangeHeader(|cells|) == ("Read " + Decimal(|cells|) + " cells:") + "\n";
    TerminatedLine("Read " + Decimal(|cells|) + " cells:");
    forall i | 0 <= i < |cells|
      ensures NewlineCount(CellLine(cells[i])) == 1
    {
      CellLineIsOneLine(cells[i]);
    }
    ListingLineCount(RangeHeader(|cells|), cells, CellLine);
  }

  /** The number in the read-range header reads back as the number of returned cells. */
  lemma RangeHeaderCount(gw: Gateway)
    ensures var n := |Listed(gw.range)|;
      StartsWith(ToolText(ReadRange, gw), "Read " + Decimal(n) + " cells:\n") && DigitsValue(Decimal(n)) == n
  {
    DecimalRoundTrip(|Listed(gw.range)|);
  }
}
