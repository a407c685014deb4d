/**
 * The request-handling core of the proxy server: how a request is routed
 * to the `/health`, `/models` or `/responses` handler or to the 404
 * fallback, how `/responses` validates its body and builds the upstream
 * request, and how an upstream failure is mapped to a reply.
 *
 * Each handler ends in exactly one `res.status(..).json(..)`, modelled as
 * the returned Response. The upstream completion call is a parameter of
 * `Serve`, and so is the clock reading that `/health` reports.
 */
module Proxy {
  import opened JsValues

  /** A reply: the HTTP status and the JSON body sent. */
  datatype Response = Response(status: int, body: Json)

  /**
   * The request body as the JSON body parser sees it: Rejected when the
   * parser refuses its text (malformed JSON, a body over the 10 MB limit,
   * an unsupported charset), Undefined when no JSON body was parsed and no
   * value reached the handler, Parsed when the text is the JSON of `value`.
   * The parser also refuses a Parsed body whose value is not an object or
   * an array (see ParserRefuses).
   */
  datatype Body = Rejected | Undefined | Parsed(value: Json)

  /**
   * Whether the body parser passes the request to the global error
   * handler instead of the routes: for text it cannot parse, and, in its
   * default strict mode, for a top-level value that is not an object or
   * an array (such as `null`, `"x"` or `42`).
   */
  predicate ParserRefuses(b: Body) {
    b.Rejected? || (b.Parsed? && !(b.value.JObject? || b.value.JArray?))
  }

  /**
   * An inbound request: the HTTP method (`verb`), the URL's path (query
   * removed) and the body. Headers are not part of it, so a request is
   * one without conditional headers such as `If-None-Match`.
   */
  datatype Request = Request(verb: string, path: string, body: Body)

  /**
   * The object handed to the upstream client: `model` and `input` are
   * present (they passed the truthiness guard), the three optional fields
   * may be `undefined`.
   */
  datatype UpstreamReq = UpstreamReq(
    model: Json,
    input: Json,
    instructions: Value,
    temperature: Value,
    maxOutputTokens: Value)

  /** Something thrown inside the `/responses` try block: only its `status` property is ever read. */
  datatype Thrown = Thrown(status: Value, message: string)

  /** What the awaited upstream call does: resolve with a body, or throw. */
  datatype UpstreamResult = Completed(body: Json) | Failed(error: Thrown)

  /** What the `/responses` handler does before awaiting: reply at once, or call upstream. */
  datatype Outcome = Reply(response: Response) | Forward(req: UpstreamReq)

  /** The handler a request reaches. */
  datatype Handler = HealthHandler | ModelsHandler | ResponsesHandler | NotFoundHandler

  const MissingFields := "Missing required fields: model and input"
  const InvalidRequest := "Invalid request parameters"
  const InvalidApiKey := "Invalid API key"
  const RateLimited := "Rate limit exceeded"
  const ServiceError := "OpenAI service error"
  const InternalServerError := "Internal server error"
  const NotFound := "Not found"

  /** The five body fields `/responses` reads, in the order it reads them. */
  const FieldNames: seq<string> := ["model", "input", "instructions", "temperature", "max_output_tokens"]

  /** The fixed model list served by `/models`. */
  const ModelNames: seq<string> := ["gpt-4o", "gpt-4o-mini", "gpt-4-turbo", "gpt-4", "gpt-3.5-turbo"]

  // ---------------------------------------------------------------------
  // Routing

  function ToLowerAscii(c: char): (d: char)
    ensures 'A' <= c <= 'Z' ==> d as int == c as int + 32
    ensures !('A' <= c <= 'Z') ==> d == c
  {
    if 'A' <= c <= 'Z' then (c as int + 32) as char else c
  }

  /** `s` with every ASCII capital letter replaced by its small letter. */
  function LowerAscii(s: string): (r: string)
    ensures |r| == |s|
    ensures forall i :: 0 <= i < |s| ==> r[i] == ToLowerAscii(s[i])
  {
    seq(|s|, i requires 0 <= i < |s| => ToLowerAscii(s[i]))
  }

  /**
   * Whether `path` matches the route pattern `route` (written in small
   * letters, as all of this server's are) under the router's defaults:
   * letters compare without regard to case and one trailing slash is
   * allowed. Case-insensitive matching of a JavaScript regular expression
   * without the `u` flag never maps a non-ASCII character onto an ASCII
   * one, so folding ASCII letters is all it does here.
   */
  predicate PathMatches(path: string, route: string) {
    var p := LowerAscii(path);
    p == route || (|p| == |route| + 1 && p[..|route|] == route && p[|route|] == '/')
  }

  /** A path matches a route exactly when, with its letters made small, it is the route or the route and one `/`. */
  lemma PathMatchesForms(path: string, route: string)
    ensures PathMatches(path, route) <==> LowerAscii(path) == route || LowerAscii(path) == route + "/"
  {
  }

  /** A route registered with `app.get` also serves HEAD requests; one registered with `app.post` serves only POST. */
  predicate GetRouteServes(verb: string) {
    LowerAscii(verb) == "get" || LowerAscii(verb) == "head"
  }

  predicate PostRouteServes(verb: string) {
    LowerAscii(verb) == "post"
  }

  /** The handler reached, trying the routes in the order they are registered and falling through to the 404 handler. */
  function Dispatch(verb: string, path: string): (h: Handler)
    ensures h == HealthHandler <==> GetRouteServes(verb) && PathMatches(path, "/health")
    ensures h == ModelsHandler <==> GetRouteServes(verb) && PathMatches(path, "/models")
    ensures h == ResponsesHandler <==> PostRouteServes(verb) && PathMatches(path, "/responses")
  {
    if GetRouteServes(verb) && PathMatches(path, "/health") then HealthHandler
    else if GetRouteServes(verb) && PathMatches(path, "/models") then ModelsHandler
    else if PostRouteServes(verb) && PathMatches(path, "/responses") then ResponsesHandler
    else NotFoundHandler
  }

  // ---------------------------------------------------------------------
  // Handlers

  /** GET /health: status "ok" and the time of the request, `now` being its ISO-8601 text. */
  function Health(now: string): (r: Response)
    ensures r.status == 200
    ensures Get(r.body, "status") == Some(JString("ok"))
    ensures Get(r.body, "timestamp") == Some(JString(now))
  {
    var members := [("status", JString("ok"))] + [("timestamp", JString(now))];
    LookupConcat([("status", JString("ok"))], [("timestamp", JString(now))], "status");
    Response(200, JObject(members))
  }

  /** GET /models: the fixed list of model names. */
  function Models(): (r: Response)
    ensures r.status == 200
    ensures Get(r.body, "models").Some? && Get(r.body, "models").value.JArray?
    ensures var items := Get(r.body, "models").value.items;
      |items| == |ModelNames| && forall i :: 0 <= i < |items| ==> items[i] == JString(ModelNames[i])
  {
    Response(200, JObject([("models", JArray([
      JString("gpt-4o"),
      JString("gpt-4o-mini"),
      JString("gpt-4-turbo"),
      JString("gpt-4"),
      JString("gpt-3.5-turbo")]))]))
  }

  /** The 404 fallback, reached by every request no route serves. */
  function NotFoundReply(): (r: Response)
    ensures r.status == 404 && Get(r.body, "error") == Some(JString(NotFound))
  {
    Response(404, ErrorEnvelope(NotFound))
  }

  /** The global error handler: whatever the error, 500 with a generic message. */
  function GlobalErrorReply(): (r: Response)
    ensures r.status == 500 && Get(r.body, "error") == Some(JString(InternalServerError))
  {
    Response(500, ErrorEnvelope(InternalServerError))
  }

  /**
   * The member `key: v` of the upstream object as this model keeps it:
   * left out when `v` is `undefined`. In JavaScript the object literal has
   * the member with the value `undefined`; reading it gives `undefined`
   * either way, and JSON serialisation drops it, so nothing the upstream
   * can observe differs.
   */
  function OptionalMember(key: string, v: Value): (m: seq<(string, Json)>)
    ensures Lookup(m, key) == v
    ensures forall i :: 0 <= i < |m| ==> m[i].0 == key
  {
    if v.Some? then [(key, v.value)] else []
  }

  /** The members of the upstream object, in the literal's order: `model`, `input`, then the optional fields that are present. */
  function PayloadMembers(u: UpstreamReq): seq<(string, Json)> {
    [("model", u.model)] + [("input", u.input)]
      + OptionalMember("instructions", u.instructions)
      + OptionalMember("temperature", u.temperature)
      + OptionalMember("max_output_tokens", u.maxOutputTokens)
  }

  /** Reading `k` from the upstream object: the last of the parts that has it decides. */
  lemma PayloadMembersReadKey(u: UpstreamReq, k: string)
    ensures Lookup(PayloadMembers(u), k) ==
      var o1 := OptionalMember("instructions", u.instructions);
      var o2 := OptionalMember("temperature", u.temperature);
      var o3 := OptionalMember("max_output_tokens", u.maxOutputTokens);
      if Lookup(o3, k).Some? then Lookup(o3, k)
      else if Lookup(o2, k).Some? then Lookup(o2, k)
      else if Lookup(o1, k).Some? then Lookup(o1, k)
      else Lookup([("model", u.model)] + [("input", u.input)], k)
  {
    var fixed: seq<(string, Json)> := [("model", u.model)] + [("input", u.input)];
    var o1 := OptionalMember("instructions", u.instructions);
    var o2 := OptionalMember("temperature", u.temperature);
    var o3 := OptionalMember("max_output_tokens", u.maxOutputTokens);
    LookupConcat(fixed + o1 + o2, o3, k);
    LookupConcat(fixed + o1, o2, k);
    LookupConcat(fixed, o1, k);
  }

  lemma PayloadMembersRead(u: UpstreamReq)
    ensures Lookup(PayloadMembers(u), "model") == Some(u.model)
    ensures Lookup(PayloadMembers(u), "input") == Some(u.input)
    ensures Lookup(PayloadMembers(u), "instructions") == u.instructions
    ensures Lookup(PayloadMembers(u), "temperature") == u.temperature
    ensures Lookup(PayloadMembers(u), "max_output_tokens") == u.maxOutputTokens
  {
    PayloadMembersReadKey(u, "model");
    LookupConcat([("model", u.model)], [("input", u.input)], "model");
    PayloadMembersReadKey(u, "input");
    PayloadMembersReadKey(u, "instructions");
    PayloadMembersReadKey(u, "temperature");
    PayloadMembersReadKey(u, "max_output_tokens");
  }

  /** The upstream object has no member outside the five field names. */
  lemma PayloadMembersNamed(u: UpstreamReq)
    ensures forall i :: 0 <= i < |PayloadMembers(u)| ==> PayloadMembers(u)[i].0 in FieldNames
  {
  }

  /**
   * The object literal passed to the upstream client. Reading any of the
   * five field names from it gives back the field; it has no other members.
   */
  function Payload(u: UpstreamReq): (j: Json)
    ensures j.JObject?
    ensures Get(j, "model") == Some(u.model)
    ensures Get(j, "input") == Some(u.input)
    ensures Get(j, "instructions") == u.instructions
    ensures Get(j, "temperature") == u.temperature
    ensures Get(j, "max_output_tokens") == u.maxOutputTokens
    ensures forall i :: 0 <= i < |j.members| ==> j.members[i].0 in FieldNames
  {
    PayloadMembersRead(u);
    PayloadMembersNamed(u);
    JObject(PayloadMembers(u))
  }

  /** The upstream request built from a body whose `model` and `input` are truthy: it reads the same five fields. */
  function UpstreamRequestFrom(b: Json): (u: UpstreamReq)
    requires Truthy(Get(b, "model")) && Truthy(Get(b, "input"))
    ensures Get(Payload(u), "model") == Get(b, "model")
    ensures Get(Payload(u), "input") == Get(b, "input")
    ensures Get(Payload(u), "instructions") == Get(b, "instructions")
    ensures Get(Payload(u), "temperature") == Get(b, "temperature")
    ensures Get(Payload(u), "max_output_tokens") == Get(b, "max_output_tokens")
  {
    UpstreamReq(Get(b, "model").value, Get(b, "input").value,
      Get(b, "instructions"), Get(b, "temperature"), Get(b, "max_output_tokens"))
  }

  /**
   * Lines 48-60 of the `/responses` handler: destructure the body, reject
   * a falsy `model` or `input`, otherwise forward the five fields as read.
   * A body that cannot be destructured throws inside the try block and is
   * mapped by the catch block like any other error.
   */
  function PrepareResponses(body: Value): (o: Outcome)
    ensures !Destructurable(body) ==> o == Reply(MapError(Thrown(None, "Cannot destructure request body")))
    ensures Destructurable(body) && !(Truthy(Get(body.value, "model")) && Truthy(Get(body.value, "input"))) ==>
      o == Reply(Response(400, ErrorEnvelope(MissingFields)))
    ensures o.Forward? <==>
      Destructurable(body) && Truthy(Get(body.value, "model")) && Truthy(Get(body.value, "input"))
    ensures o.Forward? ==>
      forall k :: k in FieldNames ==> Get(Payload(o.req), k) == Get(body.value, k)
  {
    if !Destructurable(body) then
      Reply(MapError(Thrown(None, "Cannot destructure request body")))
    else
      var b := body.value;
      var model, input := Get(b, "model"), Get(b, "input");
      if !Truthy(model) || !Truthy(input) then
        Reply(Response(400, ErrorEnvelope(MissingFields)))
      else
        assert forall k :: k in FieldNames ==>
          k == "model" || k == "input" || k == "instructions" || k == "temperature" || k == "max_output_tokens";
        Forward(UpstreamRequestFrom(b))
  }

  /**
   * The catch block: only the thrown value's `status` is inspected, by
   * strict equality; four codes have their own message and everything
   * else, including a missing or non-numeric status, is 500.
   */
  function MapError(e: Thrown): (r: Response)
    ensures r.status in {400, 401, 429, 500}
    ensures StrictEqualsNumber(e.status, r.status) || r == GlobalErrorReply()
    ensures exists m ::
      m in {InvalidRequest, InvalidApiKey, RateLimited, ServiceError, InternalServerError} && r.body == ErrorEnvelope(m)
  {
    if StrictEqualsNumber(e.status, 400) then Response(400, ErrorEnvelope(InvalidRequest))
    else if StrictEqualsNumber(e.status, 401) then Response(401, ErrorEnvelope(InvalidApiKey))
    else if StrictEqualsNumber(e.status, 429) then Response(429, ErrorEnvelope(RateLimited))
    else if StrictEqualsNumber(e.status, 500) then Response(500, ErrorEnvelope(ServiceError))
    else Response(500, ErrorEnvelope(InternalServerError))
  }

  /** After the upstream call: its body verbatim with 200, or the mapped error. */
  function Finish(result: UpstreamResult): (r: Response)
    ensures result.Completed? ==> r == Response(200, result.body)
    ensures result.Failed? ==> r == MapError(result.error)
  {
    match result
    case Completed(b) => Response(200, b)
    case Failed(e) => MapError(e)
  }

  /** The value of `req.body` the handler sees. */
  function BodyValue(b: Body): (v: Value)
    requires !b.Rejected?
    ensures v.Some? <==> b.Parsed?
  {
    if b.Parsed? then Some(b.value) else None
  }

  /**
   * A whole request: the body parser runs first for every request, and a
   * body it refuses goes to the global error handler; otherwise the
   * request is dispatched. `upstream` is the completion call and `now`
   * the time `/health` reports.
   */
  function Serve(req: Request, now: string, upstream: UpstreamReq -> UpstreamResult): (r: Response)
    ensures r.status in {200, 400, 401, 404, 429, 500}
    ensures ParserRefuses(req.body) ==> r == GlobalErrorReply()
  {
    if ParserRefuses(req.body) then GlobalErrorReply()
    else
      match Dispatch(req.verb, req.path)
      case HealthHandler => Health(now)
      case ModelsHandler => Models()
      case NotFoundHandler => NotFoundReply()
      case ResponsesHandler =>
        match PrepareResponses(BodyValue(req.body))
        case Reply(response) => response
        case Forward(u) => Finish(upstream(u))
  }
}
