/** Values exchanged by the authenticated request layer: JavaScript values as
    the service sees them, credentials, and queued requests. */
module Values {

  datatype Option<+T> = None | Some(value: T)

  /** A JavaScript number as far as the service uses one: an integer or NaN. */
  datatype Number = Num(value: int) | NaN

  /** One element of a request parameter: `undefined`, a string, or a `Date`
      whose `getTime()` is `time` and whose `toISOString()` renders as `iso`. */
  datatype Item = Missing | Str(s: string) | Date(time: Number, iso: string)

  /** A parameter value: a single element or an array of them.
      `Scalar(Missing)` is a key whose value is `undefined`. */
  datatype ParamValue = Scalar(item: Item) | List(items: seq<Item>)

  /** A request body. `NoBody` stands for every falsy JavaScript value
      (`undefined`, `null`, `''`, `0`, `false`); `Payload` for every truthy one. */
  datatype Body = NoBody | Payload(content: string)

  type Headers = map<string, string>
  type Params = map<string, ParamValue>

  /** Credentials issued by a strategy. An empty `refreshToken` stands for an
      absent one, and an `expiration` of 0 for an absent one (no expiry). */
  datatype Credentials = Credentials(accessToken: string, refreshToken: string, expiration: int)

  /** The raw inputs of one logical call, kept so that it can be re-issued. */
  datatype PendingRequest = PendingRequest(
    verb: string, path: string, data: Body, headers: Headers, params: Params)

  /** The request as handed to the transport and reported to the observer. */
  datatype Request = Request(verb: string, url: string, body: Body, headers: Headers, params: Params)

  /** A failed exchange: the HTTP `status` (0 when there is none, as for a
      timeout) and the string-valued `error` member of the payload, if any. */
  datatype HttpError = HttpError(status: int, errorCode: Option<string>)

  /** A successful exchange, with its body left uninterpreted. */
  datatype Response = Response(status: int, body: string)
}
