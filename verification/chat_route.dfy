/**
  The chat route's request handling around the continuation controller:
  validating the body, checking the provider key, starting the first call,
  and turning whatever was thrown into the response the client gets.

  In the route a non-200 response is thrown rather than returned; the web
  framework sends a thrown response just as it sends a returned one.
 */
module ChatRoute {
  import opened Wrappers
  import opened Switchable
  import opened Continuation

  datatype Header = Header(name: string, value: string)

  datatype Body = NullBody | TextBody(text: string) | StreamBody

  datatype Response = Response(status: int, statusText: string, body: Body, headers: seq<Header>)

  /** The request body as far as the route looks at it. `MalformedJson`
      stands for a body that does not parse (and for a parsed `null`, whose
      `messages` lookup throws); `messages` is `None` when the field is
      absent, falsy, or anything but an array. The route passes an array's
      elements on unchecked; here they are user and assistant messages. */
  datatype RequestBody = MalformedJson | JsonObject(messages: Option<seq<Message>>)

  /** Something thrown inside a try block: a response object, or any other error. */
  datatype Thrown = ThrownResponse(response: Response) | ThrownError

  const MissingMessages := Response(400, "Bad Request", TextBody("Invalid request: messages array is required"), [])
  const BadRequest := Response(400, "Bad Request", TextBody("Invalid JSON in request body"), [])
  const ConfigError := Response(500, "Internal Server Error", TextBody("Server configuration error"), [])
  const InternalError := Response(500, "Internal Server Error", NullBody, [])
  const StreamHeaders := [Header("Content-Type", "text/plain; charset=utf-8"), Header("Cache-Control", "no-cache")]

  /** The first try block: read the body and insist on a messages array. */
  function ReadMessages(body: RequestBody): (r: Result<seq<Message>, Thrown>)
    ensures r.Success? <==> body.JsonObject? && body.messages.Some?
    ensures r.Success? ==> body == JsonObject(Some(r.value))
    // a body that does not parse throws the parser's error, not a response
    ensures body.MalformedJson? ==> r == Failure(ThrownError)
    ensures body.JsonObject? && body.messages.None? ==> r == Failure(ThrownResponse(MissingMessages))
  {
    match body
    case MalformedJson => Failure(ThrownError)
    case JsonObject(None) => Failure(ThrownResponse(MissingMessages))
    case JsonObject(Some(ms)) => Success(ms)
  }

  /** The first try block with its catch: whatever went wrong, including
      the route's own "messages array is required" response, becomes the
      one "Invalid JSON" 400 response. */
  function ParseBody(body: RequestBody): (r: Result<seq<Message>, Response>)
    ensures r.Failure? <==> body.MalformedJson? || body.messages.None?
    ensures r.Failure? ==> r.error == BadRequest
    ensures r.Success? ==> body == JsonObject(Some(r.value))
  {
    match ReadMessages(body)
    case Failure(_) => Failure(BadRequest)
    case Success(ms) => Success(ms)
  }

  /** The catch of the second try block. */
  function HandleError(e: Thrown): (r: Response)
    ensures e.ThrownResponse? ==> r == e.response
    ensures e.ThrownError? ==> r.status == 500 && r.body == NullBody
  {
    match e
    case ThrownResponse(resp) => resp
    case ThrownError => InternalError
  }

  /** The key check: an absent or empty key is missing. */
  predicate KeyPresent(key: Option<string>) {
    key.Some? && key.value != ""
  }

  /** What the route produced, and the controller as it stands when it did.
      `thrown` tells a thrown response from the returned streaming one. */
  datatype ActionResult = ActionResult(response: Response, thrown: bool, ctl: Controller)

  /** The controller before any call: empty history, fresh stream. */
  const Idle := Controller([], Fresh, [], RouteOptions)

  /** The second try block: key check, first provider call, first attach.
      `providerThrows` says whether that first call fails. */
  function StartStream(history: seq<Message>, key: Option<string>, providerThrows: bool): (r: Result<Controller, Thrown>)
    ensures r.Success? <==> KeyPresent(key) && !providerThrows
    // the key is checked before the provider is called
    ensures !KeyPresent(key) ==> r == Failure(ThrownResponse(ConfigError))
    ensures KeyPresent(key) && providerThrows ==> r == Failure(ThrownError)
    ensures r.Success? ==>
              && Consistent(r.value)
              && r.value.messages == history
              && r.value.calls == [Call(history, RouteOptions)]
              && r.value.stream.attached == [Source(0)]
              && !r.value.stream.Closed()
  {
    if !KeyPresent(key) then Failure(ThrownResponse(ConfigError))
    else if providerThrows then Failure(ThrownError)
    else Success(Start(history))
  }

  /** The whole route. */
  function ChatAction(body: RequestBody, key: Option<string>, providerThrows: bool): (r: ActionResult)
    ensures r.response.status in {200, 400, 500}
    ensures r.thrown <==> r.response.status != 200
    // a bad body is rejected before anything reaches the provider
    ensures r.response.status == 400 <==> body.MalformedJson? || body.messages.None?
    ensures r.response.status == 400 ==> r.response == BadRequest && r.ctl.calls == []
    // a missing key is a configuration error, again before any call
    ensures r.response.status == 500 <==> !body.MalformedJson? && body.messages.Some? && (!KeyPresent(key) || providerThrows)
    ensures r.response.status == 500 && !KeyPresent(key) ==> r.response == ConfigError && r.ctl.calls == []
    ensures r.response.status == 500 && KeyPresent(key) ==> r.response == InternalError
    // no error response ever has a source attached
    ensures r.response.status != 200 ==> r.ctl.stream == Fresh
    // success streams the first call's output
    ensures r.response.status == 200 ==>
              && r.response.body == StreamBody
              && r.response.headers == StreamHeaders
              && Consistent(r.ctl)
              && r.ctl.calls == [Call(body.messages.value, RouteOptions)]
              && r.ctl.stream.attached == [Source(0)]
              && !r.ctl.stream.Closed()
  {
    match ParseBody(body)
    case Failure(resp) => ActionResult(resp, true, Idle)
    case Success(history) =>
      match StartStream(history, key, providerThrows)
      case Success(ctl) => ActionResult(Response(200, "", StreamBody, StreamHeaders), false, ctl)
      case Failure(e) =>
        var issued := if KeyPresent(key) then [Call(history, RouteOptions)] else [];
        ActionResult(HandleError(e), true, Controller(history, Fresh, issued, RouteOptions))
  }

  /** Over a whole request, whatever the provider reports afterwards, the
      provider is called at most `max(1, maxSegments)` times. */
  lemma RequestCallBound(cfg: Config, body: RequestBody, key: Option<string>, providerThrows: bool, events: seq<Completion>)
    requires ChatAction(body, key, providerThrows).response.status == 200
    ensures |Run(cfg, ChatAction(body, key, providerThrows).ctl, events).ctl.calls| <= SegmentBound(cfg)
  {
    var r := ChatAction(body, key, providerThrows);
    assert r.ctl == Start(body.messages.value);
    CallBound(cfg, body.messages.value, events);
  }
}
