/** What a public client operation hands to the transport, and what the
    completion callback finally receives. */
module Wire {
  import opened Js

  /** The library encoders whose exact output this model does not fix:
      `qs.stringify`, `querystring.unescape` and `JSON.stringify`. */
  datatype Encoders = Encoders(
    stringify: Fields -> string,
    unescape: string -> string,
    json: Value -> string)

  /** One outgoing HTTP request: the options given to `http(s).request`,
      the final parameter object and the body written to it. */
  datatype Request = Request(
    verb: string,
    secure: bool,
    host: Value,
    port: Value,
    path: string,
    headers: Fields,
    params: Fields,
    body: string,
    binary: bool)

  /** A public operation either answers the callback at once with
      `{ message }` and makes no request, or sends exactly one request. */
  datatype Call = Rejected(message: string) | Send(request: Request)

  /** What the callback receives once the response has ended. `Uncaught`
      is a TypeError or SyntaxError thrown inside the response handler:
      the callback is then never invoked. */
  datatype Outcome =
    | Failure(error: Value)
    | Success(data: Value)
    | Binary(raw: string)
    | Uncaught

  /** `{ code: c, message: m }` */
  function ErrorObject(code: Value, message: Value): (e: Value)
    ensures e.Obj? && Keys(e.fields) == ["code", "message"]
    ensures Get(e.fields, "code") == code && Get(e.fields, "message") == message
  {
    var fields := [("code", code), ("message", message)];
    assert Keys(fields[1..]) == ["message"];
    Obj(fields)
  }

  /** `{ code: c, data: d }`, the success object of CRM and Support. */
  function ResultObject(code: Value, data: Value): (r: Value)
    ensures r.Obj? && Keys(r.fields) == ["code", "data"]
    ensures Get(r.fields, "code") == code && Get(r.fields, "data") == data
  {
    var fields := [("code", code), ("data", data)];
    assert Keys(fields[1..]) == ["data"];
    Obj(fields)
  }

  const NoContentMessage := "No content data"

  /** `{ message: 'No content data' }` */
  const NoContent := Obj([("message", Str(NoContentMessage))])

  /** `protocol === 'https' ? 443 : 80`, and the port option before it. */
  function DefaultPort(portOption: Value, protocol: Value): Value {
    Or(portOption, Num(if protocol == Str("https") then 443 else 80))
  }

  /** `options = options || {}` followed by `options[k]`. */
  function Setting(options: Value, k: string): Value {
    match Or(options, Obj([]))
    case Obj(fields) => Get(fields, k)
    case _ => Undefined
  }
}
