/** The message shapes the plugin wrapper exchanges with its host window, as
    already-parsed values (src/APIWrapper.ts:10-37). JSON text is not
    modelled: an inbound event carries what parsing it yields. */
module Messages {

  datatype Option<+T> = None | Some(value: T)

  /** The intents a plugin may ask the host for (`PluginIntent`). */
  datatype PluginIntent =
    | GetSelf
    | GetUser
    | GetUsers
    | GetAssignment
    | GetCourse
    | GetCommunity
    | GetLMSLinkedSelf

  /** A JSON value as far as the wrapper looks into it.
      `Null` stands for every falsy value (null, undefined, false, 0, "");
      `TokenInfo` is a token record; `IntentList` is the `{ intents }` body
      of an intents request; `Opaque` is any other truthy payload, which
      the wrapper only passes along. */
  datatype Value =
    | Null
    | TokenInfo(token: string, expires: int)
    | IntentList(intents: seq<PluginIntent>)
    | Opaque(body: string)

  /** JavaScript truthiness, the test behind `if (x)` and `!x`. */
  predicate Truthy(v: Value) {
    !v.Null?
  }

  /** `v.expires > now`: a value without an `expires` number reads
      `undefined`, which compares false with every number. */
  predicate ExpiresAfter(v: Value, now: int) {
    match v
    case TokenInfo(_, expires) => expires > now
    case _ => false
  }

  /** `RequestResponse`: the `response` part of an inbound envelope when it
      is an object. A missing `event` behaves like any string other than
      "token", a missing `success` like false, a missing `data` like `Null`. */
  datatype RequestResponse = RequestResponse(event: string, success: bool, data: Value)

  /** What `message.response` holds. `Missing` is undefined or null, off
      which reading a field throws; `Scalar` is a boolean, number or string,
      whose fields read undefined; `Object` is a response object. */
  datatype Reply =
    | Missing
    | Scalar(truthy: bool)
    | Object(body: RequestResponse)

  /** The test `if (message.response)`. */
  predicate ReplyTruthy(r: Reply) {
    r.Object? || (r.Scalar? && r.truthy)
  }

  /** The test `message.response.event === "token" && message.response.data`
      on a reply that is not missing. */
  predicate IsTokenRefresh(r: Reply) {
    r.Object? && r.body.event == "token" && Truthy(r.body.data)
  }

  /** `response.data` of a reply that is not missing. */
  function DataOf(r: Reply): Value
    requires !r.Missing?
  {
    if r.Object? then r.body.data else Null
  }

  /** `RawResponse`: an inbound envelope. A parsed value that is not an
      object has neither field; a parsed `null` throws where a missing
      `response` does, and is represented by it. */
  datatype RawResponse = RawResponse(requestID: Option<string>, response: Reply)

  /** `RawRequest`: an outbound envelope. */
  datatype RawRequest = RawRequest(requestID: string, event: string, request: Value)

  /** The `data` of one inbound message event: whether it is a string, and
      what `JSON.parse` makes of it, `None` when parsing throws. `JSON.parse`
      converts a non-string to a string first, so a non-string can parse
      too (a one-element array holding envelope text does). */
  datatype Inbound = Inbound(isString: bool, parsed: Option<RawResponse>)

  /** A string payload holding the JSON text of `m`. */
  function Text(m: RawResponse): Inbound {
    Inbound(true, Some(m))
  }

  /** What the wrapper posts to the host window. */
  datatype Posted =
    | Connect
    | Request(raw: RawRequest)
}
