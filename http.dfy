/** What a handler receives besides the stored data and what it answers:
    the request body, the values the handler takes from its environment, the
    errors it throws and the API Gateway response they become. */
module Http {
  import opened Wrappers
  import opened Items

  /** `event.body`: absent (null, undefined or the empty string, all falsy),
      or present together with the outcome of `JSON.parse` on it: the parsed
      object's members, or the SyntaxError's message. */
  datatype RequestBody = NoBody | Body(parsed: Result<Item, string>)

  /** A configuration string counts as supplied when it is truthy. */
  predicate Supplied(s: Option<string>) {
    s.Some? && s.value != ""
  }

  /** The values one invocation obtains from outside the handler's code: the
      fresh `uuid()`, `new Date().toISOString()`, the draw of `Math.random()`,
      the error message of the key-value store or of the blob store when
      that service fails during this invocation, the error message of the
      order's put when the table refuses it for a reason other than its key
      (an item over the size limit, a throttled write), and the message of
      the validation error the key-value store answers when it refuses a key
      (its wording depends on what is wrong with the key). */
  datatype Env = Env(
    freshId: string,
    now: string,
    draw: real,
    storeDown: Option<string>,
    archiveDown: Option<string>,
    putRefused: Option<string>,
    keyRejection: string)

  /** The errors the handlers throw, each with the message it carries. */
  datatype Failure =
    | NoOrderSupplied
    | NoTableName
    | NoBucketName
    | NoPathId
    | FlagsUnavailable(message: string)
    | FlagAbsent
    | CreationDisabled
    | RandomError
    | MalformedBody(message: string)
    | QuantityOverLimit(quantity: Option<Value>, limit: Option<int>)
    | UnknownStore(storeId: Option<Value>)
    | OrderNotFound(id: string)
    | KeyRejected(message: string)
    | StoreUnavailable(message: string)
    | PutFailed(message: string)
    | ArchiveUnavailable(message: string)

  /** `error.message` of each thrown error. */
  function Message(f: Failure): (m: string)
    // errors raised by the SDK or the flag client pass their message through unchanged
    ensures f.FlagsUnavailable? ==> m == f.message
    ensures f.MalformedBody? ==> m == f.message
    ensures f.KeyRejected? ==> m == f.message
    ensures f.StoreUnavailable? ==> m == f.message
    ensures f.PutFailed? ==> m == f.message
    ensures f.ArchiveUnavailable? ==> m == f.message
  {
    match f
    case NoOrderSupplied => "no order supplied"
    case NoTableName => "no table name supplied"
    case NoBucketName => "bucket name not supplied"
    case NoPathId => NoPathIdMessage
    case FlagsUnavailable(msg) => msg
    case FlagAbsent => FlagAbsentMessage
    case CreationDisabled => CreationDisabledMessage
    case RandomError => "random error!!!"
    case MalformedBody(msg) => msg
    case QuantityOverLimit(q, l) => OverLimitMessage(q, l)
    case UnknownStore(id) => Render(id) + NotFound
    case OrderNotFound(id) => "order id " + id + NotFound
    case KeyRejected(msg) => msg
    case StoreUnavailable(msg) => msg
    case PutFailed(msg) => msg
    case ArchiveUnavailable(msg) => msg
  }

  const NotFound := " is not found"
  const NoPathIdMessage := "no id in the path parameters of the event"
  /** What reading `.enabled` of an undefined flag throws. */
  const FlagAbsentMessage := "Cannot read properties of undefined (reading 'enabled')"
  const CreationDisabledMessage := "new order creation is currently disabled via feature flag"

  /** The quantity check's message; a missing limit renders as "undefined". */
  function OverLimitMessage(quantity: Option<Value>, limit: Option<int>): string {
    "order quantity " + Render(quantity) + " is greater than limit " +
    Render(if limit.Some? then Some(Num(limit.value)) else None)
  }

  /** The response body before `JSON.stringify`. */
  datatype Payload =
    | OrderJson(order: Item)
    | OrderListJson(orders: seq<Item>)
    | MessageJson(message: string)

  /** `{ statusCode, body, headers }`; `cors` says whether the shared CORS
      headers are attached. */
  datatype Response = Response(statusCode: int, body: Payload, cors: bool)

  /** The catch block of the serverless-stack handlers: status 400 whose body is the message. */
  function Rejected(f: Failure): Response {
    Response(400, MessageJson(Message(f)), true)
  }

  /** `event.pathParameters`: absent, or the parameters API Gateway matched. */
  type PathParameters = Option<map<string, string>>

  /** The counter a serverless-stack handler emits: the success counter for
      its success status, the error counter for anything else. The case split
      is the source's own: the try block adds the success metric just before
      it returns the success status, and the catch block adds the error metric. */
  function Counter(response: Response, successStatus: int, success: string, error: string): (name: string)
    ensures response.statusCode == successStatus ==> name == success
    ensures response.statusCode != successStatus ==> name == error
  {
    if response.statusCode == successStatus then success else error
  }

  /** A serverless-pro handler either returns a response or rethrows the error. */
  datatype Outcome = Returned(response: Response) | Threw(error: Failure)
}
