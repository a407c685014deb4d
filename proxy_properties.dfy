/**
 * Properties of the proxy relating several of its functions: what a
 * whole request yields for each route, that a rejected `/responses` body
 * never reaches the upstream call, that a forwarded one reaches it
 * unchanged, and the error table.
 */
module ProxyProperties {
  import opened JsValues
  import opened Proxy

  /** A request the router hands to the `/responses` handler (its body got past the parser). */
  predicate ToResponses(req: Request) {
    !ParserRefuses(req.body) && Dispatch(req.verb, req.path) == ResponsesHandler
  }

  /** The fields `/responses` reads from a request body that reached it. */
  function BodyField(req: Request, key: string): Value
    requires !req.body.Rejected?
  {
    var v := BodyValue(req.body);
    if v.Some? then Get(v.value, key) else None
  }

  /**
   * A `/responses` body whose `model` or `input` is falsy gets the 400
   * reply, whatever the upstream would have done: the reply is the same
   * for any two upstream functions, so the upstream is never consulted.
   */
  lemma MissingFieldsNeverReachUpstream(req: Request, now: string,
                                        up1: UpstreamReq -> UpstreamResult, up2: UpstreamReq -> UpstreamResult)
    requires ToResponses(req) && Destructurable(BodyValue(req.body))
    requires !Truthy(BodyField(req, "model")) || !Truthy(BodyField(req, "input"))
    ensures Serve(req, now, up1) == Response(400, ErrorEnvelope(MissingFields))
    ensures Serve(req, now, up1) == Serve(req, now, up2)
  {
  }

  /**
   * A `/responses` body with truthy `model` and `input` is forwarded: the
   * object the upstream receives reads the same five fields as the body
   * (an absent optional field stays absent), and the reply is what
   * `Finish` makes of the upstream's result.
   */
  lemma ForwardCopiesFields(req: Request, now: string, upstream: UpstreamReq -> UpstreamResult)
    requires ToResponses(req) && Destructurable(BodyValue(req.body))
    requires Truthy(BodyField(req, "model")) && Truthy(BodyField(req, "input"))
    ensures PrepareResponses(BodyValue(req.body)).Forward?
    ensures var u := PrepareResponses(BodyValue(req.body)).req;
      && (forall k :: k in FieldNames ==> Get(Payload(u), k) == BodyField(req, k))
      && Serve(req, now, upstream) == Finish(upstream(u))
  {
  }

  /** On upstream success the reply is 200 with the upstream's body, unmodified. */
  lemma SuccessIsVerbatim(req: Request, now: string, upstream: UpstreamReq -> UpstreamResult, completion: Json)
    requires ToResponses(req) && PrepareResponses(BodyValue(req.body)).Forward?
    requires upstream(PrepareResponses(BodyValue(req.body)).req) == Completed(completion)
    ensures Serve(req, now, upstream) == Response(200, completion)
  {
  }

  /** On upstream failure the reply is the mapped error, which depends on the error's status alone. */
  lemma FailureIsMapped(req: Request, now: string, upstream: UpstreamReq -> UpstreamResult, e: Thrown)
    requires ToResponses(req) && PrepareResponses(BodyValue(req.body)).Forward?
    requires upstream(PrepareResponses(BodyValue(req.body)).req) == Failed(e)
    ensures Serve(req, now, upstream) == MapError(e)
    ensures Serve(req, now, upstream).status in {400, 401, 429, 500}
  {
  }

  /**
   * A `/responses` request whose body reaches the handler as `undefined`
   * fails the destructuring inside the try block; the TypeError has no
   * status, so the catch block answers 500 with the generic message. (A
   * `null` body never gets this far: the strict parser refuses it.)
   */
  lemma UndestructurableBodyIsInternalError(req: Request, now: string, upstream: UpstreamReq -> UpstreamResult)
    requires ToResponses(req) && !Destructurable(BodyValue(req.body))
    ensures Serve(req, now, upstream) == Response(500, ErrorEnvelope(InternalServerError))
  {
  }

  /** The error table: four recognised codes, and the default for everything else. */
  lemma MapErrorTable(e: Thrown)
    ensures StrictEqualsNumber(e.status, 400) ==> MapError(e) == Response(400, ErrorEnvelope(InvalidRequest))
    ensures StrictEqualsNumber(e.status, 401) ==> MapError(e) == Response(401, ErrorEnvelope(InvalidApiKey))
    ensures StrictEqualsNumber(e.status, 429) ==> MapError(e) == Response(429, ErrorEnvelope(RateLimited))
    ensures StrictEqualsNumber(e.status, 500) ==> MapError(e) == Response(500, ErrorEnvelope(ServiceError))
    ensures !(exists code :: code in {400, 401, 429, 500} && StrictEqualsNumber(e.status, code)) ==>
      MapError(e) == Response(500, ErrorEnvelope(InternalServerError))
  {
  }

  /** The mapping reads only the status: two errors with the same status map alike, whatever their messages. */
  lemma MapErrorIgnoresMessage(e1: Thrown, e2: Thrown)
    requires e1.status == e2.status
    ensures MapError(e1) == MapError(e2)
  {
  }

  /** Strict equality: a status that is the string "429", or absent, is not the number 429. */
  lemma MapErrorIsStrict(message: string)
    ensures MapError(Thrown(Some(JString("429")), message)) == Response(500, ErrorEnvelope(InternalServerError))
    ensures MapError(Thrown(None, message)) == Response(500, ErrorEnvelope(InternalServerError))
    ensures MapError(Thrown(Some(JNumber(Finite(418.0))), message)) == Response(500, ErrorEnvelope(InternalServerError))
  {
  }

  /** GET (or HEAD) /health always answers 200 with status "ok" and the current time. */
  lemma HealthAlwaysOk(req: Request, now: string, upstream: UpstreamReq -> UpstreamResult)
    requires !ParserRefuses(req.body) && GetRouteServes(req.verb) && PathMatches(req.path, "/health")
    ensures Serve(req, now, upstream) == Health(now)
    ensures Serve(req, now, upstream).status == 200
    ensures Get(Serve(req, now, upstream).body, "status") == Some(JString("ok"))
  {
  }

  /** GET (or HEAD) /models answers the same fixed list whenever it is asked, independent of the clock and the upstream. */
  lemma ModelsAlwaysSame(req1: Request, req2: Request, now1: string, now2: string,
                         up1: UpstreamReq -> UpstreamResult, up2: UpstreamReq -> UpstreamResult)
    requires !ParserRefuses(req1.body) && GetRouteServes(req1.verb) && PathMatches(req1.path, "/models")
    requires !ParserRefuses(req2.body) && GetRouteServes(req2.verb) && PathMatches(req2.path, "/models")
    ensures Serve(req1, now1, up1) == Serve(req2, now2, up2) == Models()
    ensures Get(Models().body, "models") == Some(JArray([
      JString("gpt-4o"), JString("gpt-4o-mini"), JString("gpt-4-turbo"), JString("gpt-4"), JString("gpt-3.5-turbo")]))
  {
  }

  /** Every request no route serves gets 404 Not found. */
  lemma UnroutedIsNotFound(req: Request, now: string, upstream: UpstreamReq -> UpstreamResult)
    requires !ParserRefuses(req.body)
    requires !(GetRouteServes(req.verb) && (PathMatches(req.path, "/health") || PathMatches(req.path, "/models")))
    requires !(PostRouteServes(req.verb) && PathMatches(req.path, "/responses"))
    ensures Serve(req, now, upstream) == Response(404, ErrorEnvelope(NotFound))
  {
  }

  /** A body the parser refused is answered 500 by the global error handler, on every path. */
  lemma RejectedBodyIsInternalError(req: Request, now: string, upstream: UpstreamReq -> UpstreamResult)
    requires ParserRefuses(req.body)
    ensures Serve(req, now, upstream) == Response(500, ErrorEnvelope(InternalServerError))
  {
  }

  /**
   * The strict parser refuses a top-level `null`, string, number or
   * boolean, so such a body never reaches a route, `/responses` included:
   * the reply is the global handler's 500, not the handler's 400.
   */
  lemma StrictParserRefusesScalars(verb: string, path: string, v: Json, now: string,
                                   upstream: UpstreamReq -> UpstreamResult)
    requires v.JNull? || v.JBool? || v.JNumber? || v.JString?
    ensures Serve(Request(verb, path, Parsed(v)), now, upstream) == GlobalErrorReply()
    ensures Serve(Request(verb, path, Parsed(v)), now, upstream) == Response(500, ErrorEnvelope(InternalServerError))
  {
  }

  /** No request matches two routes, so the order in which they are registered does not matter. */
  lemma RoutesDisjoint(verb: string, path: string)
    ensures !(PathMatches(path, "/health") && PathMatches(path, "/models"))
    ensures !(GetRouteServes(verb) && PostRouteServes(verb))
  {
  }

  /** Route matching ignores the case of ASCII letters in the method and in the path. */
  lemma RouteIgnoresCase()
    ensures Dispatch("GET", "/HEALTH") == HealthHandler
  {
  }

  /** One trailing slash is allowed, and a HEAD request is served by a GET route. */
  lemma RouteAllowsTrailingSlash()
    ensures Dispatch("HEAD", "/models/") == ModelsHandler
  {
  }

  /** The exact spelling reaches the `/responses` handler. */
  lemma RoutePostResponses()
    ensures Dispatch("POST", "/responses") == ResponsesHandler
  {
  }

  /** A second trailing slash falls through to 404. */
  lemma RouteAllowsOneSlashOnly()
    ensures Dispatch("GET", "/health//") == NotFoundHandler
  {
  }

  /** A method the route was not registered for falls through to 404. */
  lemma RouteChecksMethod()
    ensures Dispatch("GET", "/responses") == NotFoundHandler
    ensures Dispatch("POST", "/health") == NotFoundHandler
  {
    assert LowerAscii("GET") == "get";
    assert LowerAscii("POST") == "post";
  }

  /** The input text of the chat request the server's end-to-end script sends. */
  const ChatInput := "Hello! Please respond with exactly: \"Hello from AI test response!\""

  /** The body of the request the server's end-to-end script sends to `/responses`. */
  function ChatBody(): Json {
    JObject([
      ("model", JString("gpt-4o-mini")), ("input", JString(ChatInput)),
      ("temperature", JNumber(Finite(0.1))), ("max_output_tokens", JNumber(Finite(50.0)))])
  }

  /** Reading the five field names from that body. */
  lemma ChatBodyReads()
    ensures Get(ChatBody(), "model") == Some(JString("gpt-4o-mini"))
    ensures Get(ChatBody(), "input") == Some(JString(ChatInput))
    ensures Get(ChatBody(), "instructions") == None
    ensures Get(ChatBody(), "temperature") == Some(JNumber(Finite(0.1)))
    ensures Get(ChatBody(), "max_output_tokens") == Some(JNumber(Finite(50.0)))
  {
    var members := ChatBody().members;
    LookupUniqueKey(members, 0, "model");
    LookupUniqueKey(members, 1, "input");
    LookupUniqueKey(members, 2, "temperature");
    LookupUniqueKey(members, 3, "max_output_tokens");
    assert Lookup(members, "instructions") == None;
  }

  /**
   * That body is forwarded with its four fields, and with no
   * `instructions` since it has none.
   */
  lemma ChatBodyForwarded()
    ensures PrepareResponses(Some(ChatBody())) == Forward(UpstreamReq(
      JString("gpt-4o-mini"), JString(ChatInput), None, Some(JNumber(Finite(0.1))), Some(JNumber(Finite(50.0)))))
  {
    ChatBodyReads();
  }

  /** Posted to `/responses` against an upstream that completes, that request gets the completion back with 200. */
  lemma ChatRequestRoundTrip(now: string, upstream: UpstreamReq -> UpstreamResult, completion: Json)
    requires forall u :: upstream(u) == Completed(completion)
    ensures Serve(Request("POST", "/responses", Parsed(ChatBody())), now, upstream) == Response(200, completion)
  {
    ChatBodyForwarded();
    RoutePostResponses();
    SuccessIsVerbatim(Request("POST", "/responses", Parsed(ChatBody())), now, upstream, completion);
  }

  /** A body `{}` (what an older body parser leaves when nothing was sent) is rejected with 400. */
  lemma EmptyObjectIsMissingFields(req: Request, now: string, upstream: UpstreamReq -> UpstreamResult)
    requires ToResponses(req) && req.body == Parsed(JObject([]))
    ensures Serve(req, now, upstream) == Response(400, ErrorEnvelope(MissingFields))
  {
  }
}
