/**
 * The calculator MCP server: its five-tool registry, the `/mcp` dispatcher
 * and the direct REST endpoints. Dispatch is a pure decision (`RouteOf`);
 * the handlers then touch the calculation ledger.
 */
module Calculator {
  import opened Rpc
  import opened Ledger

  datatype Op = Plus | Sub | Mul | Div

  /** The tool name, which is also the operation name recorded in the ledger. */
  function OpName(op: Op): string {
    match op
    case Plus => "plus"
    case Sub => "sub"
    case Mul => "mul"
    case Div => "div"
  }

  /** The arithmetic of each tool; division is the exact quotient. */
  function Apply(op: Op, a: int, b: int): (r: real)
    requires op == Div ==> b != 0
    ensures op == Div ==> r * (b as real) == a as real
  {
    match op
    case Plus => (a + b) as real
    case Sub => (a - b) as real
    case Mul => (a * b) as real
    case Div => a as real / b as real
  }

  function Operands(aText: string, bText: string): seq<Property> {
    [Property("a", NumberType, Some(aText)), Property("b", NumberType, Some(bText))]
  }

  /** The `tools` list, in declaration order. */
  function Registry(): (tools: seq<Tool>)
    ensures Names(tools) == ["plus", "sub", "mul", "div", "history"]
  {
    [ Tool("plus", "Add two numbers together", Operands("The first number", "The second number"), Some(["a", "b"])),
      Tool("sub", "Subtract second number from first number", Operands("The first number", "The second number"), Some(["a", "b"])),
      Tool("mul", "Multiply two numbers", Operands("The first number", "The second number"), Some(["a", "b"])),
      Tool("div", "Divide first number by second number", Operands("The dividend", "The divisor"), Some(["a", "b"])),
      Tool("history", "Get calculation history from database",
           [Property("limit", NumberType, Some("Number of recent calculations to retrieve (default: 10)"))], None) ]
  }

  datatype CalcTool = Arith(op: Op) | History

  /** The `if tool_name == ...` chain of `tools/call`. */
  function LookupTool(name: Option<string>): Option<CalcTool> {
    if name == Some("plus") then Some(Arith(Plus))
    else if name == Some("sub") then Some(Arith(Sub))
    else if name == Some("mul") then Some(Arith(Mul))
    else if name == Some("div") then Some(Arith(Div))
    else if name == Some("history") then Some(History)
    else None
  }

  /** Exactly the registered names are dispatched to a handler. */
  lemma LookupMatchesRegistry(name: string)
    ensures LookupTool(Some(name)).Some? <==> name in Names(Registry())
  {
  }

  lemma LookupOpName(op: Op)
    ensures LookupTool(Some(OpName(op))) == Some(Arith(op))
  {
  }

  /**
   * `params` of a request: not an object (so `params.get` raises with the
   * given message), or the `name` and the `arguments` members `a`, `b`,
   * `limit`. Arguments that are not an object are folded into the first case.
   */
  datatype Params =
    | ParamsNotObject(error: string)
    | CallParams(name: Option<string>, a: Option<int>, b: Option<int>, limit: Field<int>)

  /** A request body: unreadable JSON, or its `method`, `params` and `id` members. */
  datatype Body =
    | Unparseable(error: string)
    | Parsed(rpcMethod: Option<string>, params: Params, id: Option<Id>)

  datatype Route =
    | ListTools
    | Compute(op: Op, a: int, b: int)
    | ShowHistory(limit: Option<int>)
    | Reject(code: int, message: string, status: int)

  const MissingOperandsMessage: string := "Missing required parameters: a and b"
  const DivisionByZeroMessage: string := "Division by zero is not allowed"

  /** How `handle_mcp` decides what to do with a request. */
  function RouteOf(body: Body): (route: Route)
    ensures route.Reject? ==> IsReservedCode(route.code) && (route.status == 400 || route.status == 500)
    ensures route.Reject? && route.status == 500 ==> route.code == InternalError
    ensures route.Compute? && route.op == Div ==> route.b != 0
  {
    match body
    case Unparseable(e) => Reject(InternalError, e, 500)
    case Parsed(rpcMethod, params, _) =>
      if rpcMethod == Some("tools/list") then ListTools
      else if rpcMethod == Some("tools/call") then CallRoute(params)
      else Reject(MethodNotFound, "Method not found: " + Show(rpcMethod), 400)
  }

  /** `tools/call`: the operands are checked before the tool name is looked at. */
  function CallRoute(params: Params): Route {
    match params
    case ParamsNotObject(e) => Reject(InternalError, e, 500)
    case CallParams(name, a, b, limit) =>
      if a.None? || b.None? then Reject(InvalidParams, MissingOperandsMessage, 400)
      else
        match LookupTool(name)
        case Some(Arith(op)) =>
          if op == Div && b.value == 0 then Reject(InternalError, DivisionByZeroMessage, 400)
          else Compute(op, a.value, b.value)
        case Some(History) => ShowHistory(GetWithDefault(limit, 10))
        case None => Reject(MethodNotFound, "Unknown tool: " + Show(name), 400)
  }

  function ToolCall(name: Option<string>, a: Option<int>, b: Option<int>, limit: Field<int>, id: Option<Id>): Body {
    Parsed(Some("tools/call"), CallParams(name, a, b, limit), id)
  }

  /**
   * A missing operand is rejected with invalid params before the tool name
   * is looked at: also for `history`, which declares no operands, and for
   * names that are not tools.
   */
  lemma MissingOperandRejectedFirst(name: Option<string>, a: Option<int>, b: Option<int>, limit: Field<int>, id: Option<Id>)
    requires a.None? || b.None?
    ensures RouteOf(ToolCall(name, a, b, limit, id)) == Reject(InvalidParams, MissingOperandsMessage, 400)
  {
  }

  /** `history` declares no required operands, yet a call without them is rejected. */
  lemma HistorySchemaDisagreesWithValidation(limit: int, id: Option<Id>)
    ensures Registry()[4].name == "history" && Registry()[4].required == None
    ensures RouteOf(ToolCall(Some("history"), None, None, Given(limit), id)).Reject?
  {
  }

  /**
   * A call computes exactly when both operands are present (zero included),
   * the name is an arithmetic tool, and it is not a division by zero.
   */
  lemma ComputeExactly(name: Option<string>, a: Option<int>, b: Option<int>, limit: Field<int>, id: Option<Id>, op: Op)
    ensures RouteOf(ToolCall(name, a, b, limit, id)).Compute? <==>
      a.Some? && b.Some? && LookupTool(name).Some? && LookupTool(name).value.Arith?
      && !(LookupTool(name).value.op == Div && b.value == 0)
    ensures a.Some? && b.Some? && name == Some(OpName(op)) && !(op == Div && b.value == 0) ==>
      RouteOf(ToolCall(name, a, b, limit, id)) == Compute(op, a.value, b.value)
  {
    LookupOpName(op);
  }

  lemma DivisionByZeroRejected(a: int, limit: Field<int>, id: Option<Id>)
    ensures RouteOf(ToolCall(Some("div"), Some(a), Some(0), limit, id)) == Reject(InternalError, DivisionByZeroMessage, 400)
  {
  }

  /** With both operands present, a name that is not registered is reported as an unknown tool. */
  lemma UnknownToolRejected(name: Option<string>, a: int, b: int, limit: Field<int>, id: Option<Id>)
    requires name.None? || name.value !in Names(Registry())
    ensures RouteOf(ToolCall(name, Some(a), Some(b), limit, id)) == Reject(MethodNotFound, "Unknown tool: " + Show(name), 400)
  {
    if name.Some? {
      LookupMatchesRegistry(name.value);
    }
  }

  lemma UnknownMethodRejected(rpcMethod: Option<string>, params: Params, id: Option<Id>)
    requires rpcMethod != Some("tools/list") && rpcMethod != Some("tools/call")
    ensures RouteOf(Parsed(rpcMethod, params, id)) == Reject(MethodNotFound, "Method not found: " + Show(rpcMethod), 400)
  {
  }

  /** The `history` tool reads `limit` with default 10; an explicit null limit reaches the ledger as a non-integer. */
  lemma HistoryLimitDefault(a: int, b: int, limit: Field<int>, id: Option<Id>)
    ensures RouteOf(ToolCall(Some("history"), Some(a), Some(b), limit, id)) ==
      ShowHistory(if limit.Absent? then Some(10) else if limit.Null? then None else Some(limit.value))
  {
  }

  /**
   * The exception path: an unreadable body, or `params` or `arguments` that
   * are not objects, answer an internal error with status 500 and the
   * exception's message; an unreadable body echoes a null id.
   */
  lemma ExceptionPathRejected(e: string, id: Option<Id>)
    ensures RouteOf(Unparseable(e)) == Reject(InternalError, e, 500)
    ensures RouteOf(Parsed(Some("tools/call"), ParamsNotObject(e), id)) == Reject(InternalError, e, 500)
    ensures EchoId(Unparseable(e)) == None && EchoId(Parsed(Some("tools/call"), ParamsNotObject(e), id)) == id
  {
  }

  /** The id a response echoes: the request's `id`, or null when it is absent or the body is unreadable. */
  function EchoId(body: Body): Option<Id> {
    if body.Parsed? then body.id else None
  }

  function StatusOf(route: Route): int {
    if route.Reject? then route.status else 200
  }

  /** The text content of a successful `tools/call`; number formatting is left abstract. */
  datatype CallText =
    | Computed(op: Op, a: int, b: int, result: real)
    | HistoryListing(limit: int, entries: seq<Row>)
    | NoHistory

  /** The `history` tool's text: the listing, or "No calculation history found" when it is empty. */
  function HistoryText(limit: Option<int>, rows: seq<Row>): CallText {
    if limit.None? || Recent(rows, limit.value) == [] then NoHistory
    else HistoryListing(limit.value, Recent(rows, limit.value))
  }

  /** The history tool lists every row, newest first, when `limit` is 0. */
  lemma HistoryToolZeroLimitListsAll(rows: seq<Row>)
    requires rows != []
    ensures HistoryText(Some(0), rows).HistoryListing?
    ensures |HistoryText(Some(0), rows).entries| == |rows|
    ensures forall i :: 0 <= i < |rows| ==> HistoryText(Some(0), rows).entries[i] == rows[|rows| - 1 - i]
  {
    RecentShape(rows, 0);
  }

  /** `handle_mcp`: routes the request, then saves or reads the ledger as the route demands. */
  method HandleMcp(ledger: CsvLedger, body: Body, now: string) returns (reply: Reply<CallText>)
    modifies ledger
    ensures reply.id == EchoId(body)
    ensures reply.status == StatusOf(RouteOf(body))
    ensures RouteOf(body).Compute? || Rows(ledger.file) == Rows(old(ledger.file))
    ensures match RouteOf(body)
      case ListTools =>
        reply.payload == ToolList(Registry()) && ledger.file == old(ledger.file)
      case Compute(op, a, b) =>
        reply.payload == Content(Computed(op, a, b, Apply(op, a, b)))
        && ledger.file == Some(Appended(Rows(old(ledger.file)), OpName(op), a, b, Apply(op, a, b), now))
      case ShowHistory(limit) =>
        reply.payload == Content(HistoryText(limit, Rows(old(ledger.file))))
        && ledger.file == Initialized(old(ledger.file))
      case Reject(code, message, _) =>
        reply.payload == Error(code, message) && ledger.file == old(ledger.file)
  {
    var id := EchoId(body);
    var route := RouteOf(body);
    match route {
      case ListTools =>
        reply := Reply(200, ToolList(Registry()), id);
      case Compute(op, a, b) =>
        var result := Apply(op, a, b);
        ledger.SaveCalculation(OpName(op), a, b, result, now);
        reply := Reply(200, Content(Computed(op, a, b, result)), id);
      case ShowHistory(limit) =>
        var history := ledger.GetCalculationHistory(limit);
        var text := if history == [] then NoHistory else HistoryListing(limit.value, history);
        reply := Reply(200, Content(text), id);
      case Reject(code, message, status) =>
        reply := Reply(status, Error(code, message), id);
    }
  }

  /** What a direct endpoint `/plus`, `/sub`, `/mul` or `/div` answers. */
  datatype RestReply =
    | Calculated(operation: Op, a: int, b: int, result: real)
    | MissingOperands
    | ZeroDivisor(a: int, b: int)

  function RestStatus(reply: RestReply): int {
    if reply.Calculated? then 200 else 400
  }

  /** The decision of a direct endpoint for operation `op` and the request's `a` and `b`. */
  function RestDecision(op: Op, a: Option<int>, b: Option<int>): (reply: RestReply)
    ensures reply.Calculated? <==> a.Some? && b.Some? && !(op == Div && b.value == 0)
    ensures reply.Calculated? ==> reply.operation == op && reply.a == a.value && reply.b == b.value
    ensures reply.ZeroDivisor? ==> op == Div && reply.b == 0
  {
    if a.None? || b.None? then MissingOperands
    else if op == Div && b.value == 0 then ZeroDivisor(a.value, b.value)
    else Calculated(op, a.value, b.value, Apply(op, a.value, b.value))
  }

  /** The direct endpoints: the same arithmetic as `tools/call`, saving one row exactly when it succeeds. */
  method RestEndpoint(ledger: CsvLedger, op: Op, a: Option<int>, b: Option<int>, now: string) returns (reply: RestReply)
    modifies ledger
    ensures reply == RestDecision(op, a, b)
    ensures reply.Calculated? ==> ledger.file == Some(Appended(Rows(old(ledger.file)), OpName(op), reply.a, reply.b, reply.result, now))
    ensures !reply.Calculated? ==> ledger.file == old(ledger.file)
  {
    reply := RestDecision(op, a, b);
    if reply.Calculated? {
      ledger.SaveCalculation(OpName(op), reply.a, reply.b, reply.result, now);
    }
  }

  /** A direct endpoint and `tools/call` with the same operation agree on when and what they compute. */
  lemma RestAgreesWithMcp(op: Op, a: Option<int>, b: Option<int>, limit: Field<int>, id: Option<Id>)
    ensures RestDecision(op, a, b).Calculated? <==> RouteOf(ToolCall(Some(OpName(op)), a, b, limit, id)).Compute?
    ensures RestDecision(op, a, b).Calculated? ==>
      RouteOf(ToolCall(Some(OpName(op)), a, b, limit, id)) == Compute(op, a.value, b.value)
      && RestDecision(op, a, b).result == Apply(op, a.value, b.value)
    ensures RestDecision(op, a, b).MissingOperands? <==>
      RouteOf(ToolCall(Some(OpName(op)), a, b, limit, id)) == Reject(InvalidParams, MissingOperandsMessage, 400)
  {
    LookupOpName(op);
  }

  /** `GET /history?limit=N`: the newest-first history and its length; without a query the limit is 10. */
  method HistoryEndpoint(ledger: CsvLedger, limit: Option<int>) returns (history: seq<Row>, count: int)
    modifies ledger
    ensures ledger.file == Initialized(old(ledger.file))
    ensures limit.None? ==> history == Recent(Rows(old(ledger.file)), 10)
    ensures limit.Some? ==> history == Recent(Rows(old(ledger.file)), limit.value)
    ensures count == |history| == HistoryLength(|Rows(old(ledger.file))|, if limit.Some? then limit.value else 10)
  {
    var n := if limit.Some? then limit.value else 10;
    history := ledger.GetCalculationHistory(Some(n));
    RecentShape(Rows(old(ledger.file)), n);
    count := |history|;
  }
}
