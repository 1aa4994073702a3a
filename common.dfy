/** Values shared by the whole client model: optional values and results,
    raw bodies, the loosely typed JSON values the server sends, the abstract
    outcome of one HTTP exchange, and the client's error values. */
module Common {

  datatype Option<T> = None | Some(value: T)

  datatype Result<T, E> = Ok(value: T) | Err(error: E)

  newtype byte = x: int | 0 <= x < 256

  /** A raw response body, as read from the connection. */
  type Bytes = seq<byte>

  /** A decoded JSON value (Go's `interface{}` after `json.Unmarshal`).
      Numbers are modelled as integers. */
  datatype Value =
    | Null
    | Bool(b: bool)
    | Number(n: int)
    | Str(s: string)
    | Array(items: seq<Value>)
    | Object(fields: map<string, Value>)

  /** What one HTTP call through the transport gives back: either the
      transport failed (connecting, sending or reading the body), or the
      server replied with a status code and a body. */
  datatype Response = Failed(reason: string) | Replied(status: int, body: Bytes)

  /** A request the client issued, in the order it issued them. */
  datatype Request = Get(url: string) | Post(url: string, body: Value)

  /** The client's errors. `Message` is an error created from a fixed text,
      `StatusMessage(prefix, code)` one whose text is `prefix` followed by the
      decimal status code, `Wrapped` adds context to a cause, `Transport` is
      a failure inside the HTTP transport, `DecodeFailure` a body that did
      not unmarshal, `InvalidPipelineTemplate` the sentinel a plan returns
      for a rejected template, and `Panic` a run-time panic of the source. */
  datatype Error =
    | Message(text: string)
    | StatusMessage(prefix: string, code: int)
    | Wrapped(context: string, cause: Error)
    | Transport(reason: string)
    | DecodeFailure
    | InvalidPipelineTemplate
    | Panic(reason: string)

  const StatusOK: int := 200
  const StatusAccepted: int := 202
  const StatusBadRequest: int := 400
  const StatusForbidden: int := 403
  const StatusNotFound: int := 404
}
