/**
 * The vocabulary both MCP servers share: how a JSON request member is read,
 * the JSON-RPC 2.0 error codes they use, tool descriptors as `tools/list`
 * publishes them, and the response envelope.
 */
module Rpc {

  datatype Option<+T> = None | Some(value: T)

  /** A member of a JSON object: missing, present with `null`, or present with a value. */
  datatype Field<+T> = Absent | Null | Given(value: T)

  /** Python's `obj.get(key, default)`: the default replaces a missing member only, not an explicit `null`. */
  function GetWithDefault<T>(f: Field<T>, default: T): Option<T> {
    match f
    case Absent => Some(default)
    case Null => None
    case Given(v) => Some(v)
  }

  /**
   * A value as an f-string renders it. Values whose rendering is outside the
   * model are carried as their text already; None renders as "None".
   */
  function Show(o: Option<string>): string {
    if o.Some? then o.value else "None"
  }

  /** A JSON-RPC request id (any JSON value the client chose; null is `None` where an id is echoed). */
  datatype Id = IntId(n: int) | StrId(s: string)

  /** The reserved error codes of section 5.1 of the JSON-RPC 2.0 specification that the servers use. */
  const MethodNotFound: int := -32601
  const InvalidParams: int := -32602
  const InternalError: int := -32603

  predicate IsReservedCode(code: int) {
    code == MethodNotFound || code == InvalidParams || code == InternalError
  }

  /** The JSON Schema types the tool descriptors use. */
  datatype JsonType = NumberType | StringType | ArrayType(items: JsonType)

  /** One entry of an input schema's `properties` object, in declaration order. */
  datatype Property = Property(name: string, kind: JsonType, description: Option<string>)

  /**
   * A tool descriptor: name, description and an `inputSchema` of type object.
   * `required` is None when the schema has no `required` member at all.
   */
  datatype Tool = Tool(name: string, description: string, properties: seq<Property>, required: Option<seq<string>>)

  function Names(tools: seq<Tool>): seq<string> {
    if tools == [] then [] else [tools[0].name] + Names(tools[1..])
  }

  /** The body of a response: the tool list, one text content item, or an error object. */
  datatype Payload<+C> = ToolList(tools: seq<Tool>) | Content(text: C) | Error(code: int, message: string)

  /** A response: HTTP status, the `result` or `error` payload, and the echoed `id` (None is JSON null). */
  datatype Reply<+C> = Reply(status: int, payload: Payload<C>, id: Option<Id>)
}
