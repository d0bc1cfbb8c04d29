/**
 * What handlers exchange with the outside: gateway calls that return or
 * throw, the `{ success, data | error }` envelope every handler returns, the
 * JSON payloads it carries, and the clock.
 */
module Envelope {
  import opened Values

  /** A thrown value: an `Error` instance with its message, or anything else. */
  datatype Exception = Error(message: string) | NonError

  /** `e instanceof Error ? e.message : fallback`. */
  function MessageOr(e: Exception, fallback: string): (m: string)
    ensures e.Error? ==> m == e.message
    ensures e.NonError? ==> m == fallback
  {
    match e
    case Error(msg) => msg
    case NonError => fallback
  }

  /** The outcome of one awaited gateway call. */
  datatype Call<T> = Returned(value: T) | Raised(exc: Exception)

  /** A JSON value as `JSON.stringify` sees it; an `Undefined` property is dropped. */
  datatype Json = JValue(v: Value) | JArray(items: seq<Json>) | JObject(fields: seq<(string, Json)>)

  /** `data` of a successful envelope: a ready text, or a structure to stringify. */
  datatype Payload = Text(text: string) | Data(json: Json)

  /** `{ success: true, data }` or `{ success: false, error }`. */
  datatype ToolResult = Success(data: Payload) | Failure(error: string)

  /** `Date.now()` and the rendering `formatTimestamp` applies to a timestamp. */
  datatype Clock = Clock(now: int, show: int -> string)

  /** `{ success: false, error: e instanceof Error ? e.message : fallback }`. */
  function Caught(e: Exception, fallback: string): (r: ToolResult)
    ensures r.Failure? && r.error == MessageOr(e, fallback)
  {
    Failure(MessageOr(e, fallback))
  }

  const UnknownError := "未知错误"

  function JNum(x: real): Json {
    JValue(Num(x))
  }

  function JStr(s: string): Json {
    JValue(Str(s))
  }

  function JInt(n: int): Json {
    JValue(Num(n as real))
  }

  function JBool(b: bool): Json {
    JValue(Bool(b))
  }

  const JNull: Json := JValue(Null)
}
