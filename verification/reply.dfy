/**
 * What the chat endpoint makes of the upstream call: which JSON value is
 * recorded as the assistant's turn, which failures lead to a rollback, and the
 * `reply` value returned to the browser in each case.
 */
module Reply {
  import opened Wrappers
  import opened JsonValues
  import opened Digits

  /** What the upstream POST produced, in place of the HTTP call itself. */
  datatype Outcome =
      /** A response arrived; `body` is `response.json()`, or the decoder's error message. */
    | Response(status: int, body: Result<Json, string>)
      /** `httpx.RequestError` (connection failure, timeout, ...) with its message. */
    | TransportError(detail: string)
      /** Any other `Exception` raised while making the call, with its message. */
    | OtherError(detail: string)
      /**
       * The handler's task was cancelled while awaiting the call: the
       * `asyncio.CancelledError` thrown in is a `BaseException`, which neither
       * `except` clause catches.
       */
    | Cancelled

  /** The three `except`/`else` paths of the endpoint; each one rolls the user turn back. */
  datatype ErrorKind =
    | HttpStatus(code: int)
    | Connection(detail: string)
    | System(detail: string)

  const NoContent: Json := JStr("No content")
  const EmptyResponse: Json := JStr("Empty response")

  /** `obj.get("content", "No content")`. */
  function ContentOf(fields: map<string, Json>): (v: Json)
    ensures "content" in fields ==> v == fields["content"]
    ensures "content" !in fields ==> v == NoContent
  {
    if "content" in fields then fields["content"] else NoContent
  }

  /** Message Python gives when `.get` is called on a value that is not a dict. */
  function NoGetMessage(v: Json): (m: string)
    ensures var name := TypeName(v);
            |m| > |name| + 1 && m[0] == '\'' && m[1..|name| + 1] == name &&
            m[|name| + 1..] == "' object has no attribute 'get'"
  {
    "'" + TypeName(v) + "' object has no attribute 'get'"
  }

  /**
   * Reply extraction from a decoded 200 body: the first element of a
   * non-empty list or the object itself supplies `content` (default
   * "No content"); anything else, an empty list included, gives
   * "Empty response". A non-empty list whose first element is not an object
   * makes `.get` raise.
   */
  function ParseReply(data: Json): (r: Result<Json, string>)
    ensures r.Failure? <==> data.JArr? && |data.items| > 0 && !data.items[0].JObj?
    ensures r.Failure? ==> r.error == NoGetMessage(data.items[0])
    ensures data.JObj? ==> r == Success(ContentOf(data.fields))
    ensures data.JArr? && |data.items| > 0 && data.items[0].JObj? ==> r == Success(ContentOf(data.items[0].fields))
    ensures data.JObj? && "content" in data.fields ==> r == Success(data.fields["content"])
    ensures (data.JArr? && |data.items| > 0 && data.items[0].JObj? && "content" in data.items[0].fields) ==>
              r == Success(data.items[0].fields["content"])
    ensures r.Success? && r.value != NoContent && r.value != EmptyResponse ==>
              (data.JObj? && "content" in data.fields) ||
              (data.JArr? && |data.items| > 0 && data.items[0].JObj? && "content" in data.items[0].fields)
    ensures !data.JObj? && !(data.JArr? && |data.items| > 0) ==> r == Success(EmptyResponse)
  {
    match data
    case JArr(items) =>
      if |items| > 0 then
        (if items[0].JObj? then Success(ContentOf(items[0].fields)) else Failure(NoGetMessage(items[0])))
      else Success(EmptyResponse)
    case JObj(fields) => Success(ContentOf(fields))
    case _ => Success(EmptyResponse)
  }

  /**
   * The assistant reply of a successful exchange, or the error that sends the
   * endpoint down a rollback path.
   */
  function Resolve(outcome: Outcome): (r: Result<Json, ErrorKind>)
    requires !outcome.Cancelled?
    ensures r.Success? <==>
              outcome.Response? && outcome.status == 200 && outcome.body.Success? &&
              ParseReply(outcome.body.value).Success?
    ensures r.Success? ==> r.value == ParseReply(outcome.body.value).value
    ensures r.Failure? && r.error.HttpStatus? <==> outcome.Response? && outcome.status != 200
    ensures r.Failure? && r.error.HttpStatus? ==> r.error.code == outcome.status
    ensures r.Failure? && r.error.Connection? <==> outcome.TransportError?
    ensures outcome.TransportError? ==> r == Failure(Connection(outcome.detail))
    ensures outcome.OtherError? ==> r == Failure(System(outcome.detail))
    ensures outcome.Response? && outcome.status == 200 && outcome.body.Failure? ==>
              r == Failure(System(outcome.body.error))
    ensures outcome.Response? && outcome.status == 200 && outcome.body.Success? &&
            ParseReply(outcome.body.value).Failure? ==>
              r == Failure(System(ParseReply(outcome.body.value).error))
  {
    match outcome
    case Response(status, body) =>
      if status != 200 then Failure(HttpStatus(status))
      else (
        match body
        case Failure(message) => Failure(System(message))
        case Success(data) =>
          match ParseReply(data)
          case Success(reply) => Success(reply)
          case Failure(message) => Failure(System(message))
      )
    case TransportError(detail) => Failure(Connection(detail))
    case OtherError(detail) => Failure(System(detail))
  }

  /** The exchange appends the assistant's reply. */
  predicate Commits(outcome: Outcome) {
    !outcome.Cancelled? && Resolve(outcome).Success?
  }

  /** The exchange pops the user's turn again. */
  predicate RollsBack(outcome: Outcome) {
    !outcome.Cancelled? && Resolve(outcome).Failure?
  }

  /**
   * The text of the `reply` field on an error path: a bold label naming the
   * kind of failure, followed by the status code or the exception's message.
   */
  function ErrorText(e: ErrorKind): (t: string)
    ensures e.HttpStatus? ==>
              var code := Decimal(e.code);
              |t| > 8 + |code| && t[..8] == "**Error " && t[8..8 + |code|] == code &&
              t[8 + |code|..] == ":** Unable to fetch data."
    ensures e.Connection? ==>
              |t| >= 22 && t[..22] == "**Connection Error:** " && t[22..] == e.detail
    ensures e.System? ==>
              |t| >= 18 && t[..18] == "**System Error:** " && t[18..] == e.detail
  {
    match e
    case HttpStatus(code) => "**Error " + Decimal(code) + ":** Unable to fetch data."
    case Connection(detail) => "**Connection Error:** " + detail
    case System(detail) => "**System Error:** " + detail
  }

  /** The `reply` field of the endpoint's response: the assistant's reply, or the error text. */
  function ReplyValue(r: Result<Json, ErrorKind>): (v: Json)
    ensures r.Success? ==> v == r.value
    ensures r.Failure? ==> v == JStr(ErrorText(r.error))
  {
    match r
    case Success(reply) => reply
    case Failure(e) => JStr(ErrorText(e))
  }

  /**
   * A list reply records its first object's content; an empty object records
   * "No content"; an empty list records "Empty response"; a list headed by a
   * string raises the `str` has-no-`get` error.
   */
  lemma ParseReplyExamples()
    ensures ParseReply(JArr([JObj(map["content" := JStr("Part ABC123")])])) == Success(JStr("Part ABC123"))
    ensures ParseReply(JObj(map[])) == Success(NoContent)
    ensures ParseReply(JArr([])) == Success(EmptyResponse)
    ensures ParseReply(JArr([JStr("x")])) == Failure(NoGetMessage(JStr("x"))) && TypeName(JStr("x")) == "str"
  {
  }

  /** Two different status codes never give the same error reply. */
  lemma ErrorTextDeterminesStatus(a: int, b: int)
    ensures ErrorText(HttpStatus(a)) == ErrorText(HttpStatus(b)) ==> a == b
  {
    var ta, tb := ErrorText(HttpStatus(a)), ErrorText(HttpStatus(b));
    var da, db := Decimal(a), Decimal(b);
    if ta == tb {
      assert da == ta[8..8 + |da|] == tb[8..8 + |db|] == db;
      DecimalInjective(a, b);
    }
  }
}
