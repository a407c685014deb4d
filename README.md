# Proxy request handling, modelled in Dafny

The server is a small HTTP proxy that sits in front of an upstream
language-model completion API. It has three routes:

- `GET /health` answers with status `"ok"` and a timestamp.
- `GET /models` answers with a fixed list of five model names.
- `POST /responses` checks that the body has `model` and `input`, forwards
  five fields to the upstream `responses.create` call, and answers with the
  upstream's result or with a mapped error.

Every other request gets 404 `Not found`. A body that the JSON body parser
refuses goes to the global error handler, which answers 500
`Internal server error`.

This project models that decision procedure as pure functions over an
abstract request:

- `js_values.dfy` (module `JsValues`) holds the JavaScript values a parsed
  JSON body can contain. It also defines the JavaScript operations the
  handler depends on:
  - truthiness (`Truthy`);
  - reading a named property (`Get`, `Lookup`), where the last of several
    members with the same name is the one read;
  - destructuring, which throws on `undefined` or `null` (`Destructurable`);
  - strict `===` against a number literal (`StrictEqualsNumber`).
- `proxy.dfy` (module `Proxy`) holds the router (`Dispatch`), the handlers
  (`Health`, `Models`, `PrepareResponses`, `NotFoundReply`,
  `GlobalErrorReply`), the object given to the upstream (`Payload`), the
  catch-block error mapping (`MapError`) and the step after the upstream call
  (`Finish`). `Serve` combines them into one function for a whole request.
- `proxy_properties.dfy` (module `ProxyProperties`) holds lemmas that relate
  these functions over whole requests.

`Serve` treats its environment as parameters:

- `upstream: UpstreamReq -> UpstreamResult` stands for the upstream call. It
  either completes with a JSON body or throws a value whose `status` property
  is any JSON value or `undefined`.
- `now` is the ISO-8601 text of the current time, which `/health` reports.

Since the upstream is a function parameter, "the upstream is never called"
can be stated as a proof: the reply is the same for any two upstream
functions.

Routing follows the router's default matching:

- ASCII letters compare without regard to case, in the path and in the
  method. Node's HTTP parser accepts only upper-case method names, so in
  practice only the path's case is ever folded; the router itself folds both.
- One trailing slash is allowed.
- A route registered for GET also serves HEAD.

The route is chosen from the URL's path with the query string removed.

Three behaviours of the code worth knowing:

- `/responses` rejects a `model` or `input` that is JavaScript-falsy. So an
  absent field, `""`, `0`, `false` and `null` all get the 400 reply, while
  `{}` and `[]` pass the check.
- `/health` and `/models` can fail. The JSON body parser runs before every
  route, so a request to either of them gets the global handler's 500 when
  its JSON body is malformed, too large, or a top-level value that is not an
  object or an array.
- HEAD requests to `/health` and `/models` are served by those routes rather than
  answered with 404.

## Model

| member | source | states |
|---|---|---|
| `JsValues.Truthy` | src/server.ts:50 | (definition) a value is falsy exactly when it is `undefined`, `null`, `false`, 0, NaN or `""`; every other value, `{}` and `[]` included, is truthy |
| `JsValues.FalsyValues` | src/server.ts:50 | `!v` holds exactly for `undefined`, `null`, `false`, 0, NaN and `""`; `{}` and `[]` are truthy |
| `JsValues.Get` | src/server.ts:48 | reading a property of a value that is not an object gives `undefined`; reading one of an object gives `undefined` exactly when no member has that name |
| `JsValues.Destructurable` | src/server.ts:48 | (definition) destructuring the body throws a TypeError exactly when the body is `undefined` or `null` |
| `JsValues.StrictEqualsNumber` | src/server.ts:67-76 | (definition) `v === n` holds only when `v` is the number `n`: no string, no `undefined`, no NaN or infinity |
| `JsValues.ErrorEnvelope` | src/server.ts:51 | the body `{ error: message }`: its `error` reads the message and it has no other member |
| `JsValues.Lookup` | src/server.ts:48 | reading a property of a parsed object gives `undefined` exactly when no member has that name |
| `JsValues.LookupFindsLast` | src/server.ts:48 | when the read gives a value, it is the value of the last member with that name (later duplicates overwrite earlier ones) |
| `JsValues.LookupUniqueKey` | src/server.ts:48 | when exactly one member has the name, the read gives that member's value |
| `JsValues.LookupConcat` | src/server.ts:54-60 | a read of an object made of two parts finds the name in the later part if it is there, and in the earlier part otherwise |
| `Proxy.ParserRefuses` | src/server.ts:21 | (definition) the body parser hands the request to the global error handler when the body text cannot be parsed, or, in strict mode, when its top-level value is neither an object nor an array |
| `Proxy.PathMatches` | src/server.ts:24 | (definition) the path, with its ASCII letters made small, is the route, or the route followed by one `/` |
| `Proxy.PathMatchesForms` | src/server.ts:24 | a path matches a route exactly when its small-letter form equals the route or the route plus `/` |
| `Proxy.GetRouteServes` | src/server.ts:24 | (definition) a route registered with `app.get` serves the methods GET and HEAD, compared without regard to case |
| `Proxy.PostRouteServes` | src/server.ts:46 | (definition) a route registered with `app.post` serves the method POST only, compared without regard to case |
| `Proxy.Dispatch` | src/server.ts:24-94 | the request reaches `/health` or `/models` exactly when the method is GET or HEAD and the path matches that route; it reaches `/responses` exactly when the method is POST and the path matches; otherwise it reaches the 404 handler |
| `Proxy.Health` | src/server.ts:24-26 | status 200; the body's `status` is `"ok"` and its `timestamp` is the supplied time |
| `Proxy.Models` | src/server.ts:28-39 | status 200; the body's `models` is an array of exactly the five fixed names, in order |
| `Proxy.NotFoundReply` | src/server.ts:92-94 | status 404 with error `Not found` |
| `Proxy.GlobalErrorReply` | src/server.ts:86-89 | status 500 with error `Internal server error`, whatever the error |
| `Proxy.OptionalMember` | src/server.ts:57-59 | the member for an optional field: reading its name gives the field's value, `undefined` when the field is `undefined`, and it holds no member of another name |
| `Proxy.PayloadMembers` | src/server.ts:54-60 | (definition) the members of the upstream object: `model`, `input`, then each optional field that is not `undefined`, in the literal's order |
| `Proxy.PayloadMembersRead` | src/server.ts:54-60 | reading each of the five names from those members gives the field of the upstream request |
| `Proxy.PayloadMembersNamed` | src/server.ts:54-60 | every one of those members is named by one of the five field names |
| `Proxy.Payload` | src/server.ts:54-60 | the object given to the upstream reads `model` and `input` as given and the three optional fields as given, absent ones staying absent, and it has no member outside the five field names |
| `Proxy.UpstreamRequestFrom` | src/server.ts:54-60 | the request built from a body whose `model` and `input` are truthy reads each of the five fields exactly as the body does |
| `Proxy.PrepareResponses` | src/server.ts:46-60 | a body that cannot be destructured gets the catch block's no-status reply; otherwise a falsy `model` or `input` gets 400 `Missing required fields: model and input`; the request is forwarded exactly when neither happens, and then the upstream object reads the same five fields as the body |
| `Proxy.MapError` | src/server.ts:63-81 | the status is one of 400, 401, 429 and 500; either the reply's status is strictly equal to the error's status or the reply is the default 500 `Internal server error`; the body is an error envelope with one of the five fixed messages |
| `Proxy.Finish` | src/server.ts:62-81 | a completed upstream call is answered 200 with its body verbatim; a failed one gets the mapped error |
| `Proxy.Serve` | src/server.ts:21-94 | for a request without conditional headers, every reply status is one of 200, 400, 401, 404, 429 and 500; a body the parser refuses (unparseable text, or a top-level value that is not an object or an array) gets the global handler's 500 on every route |
| `ProxyProperties.MissingFieldsNeverReachUpstream` | src/server.ts:50-52 | a `/responses` body with falsy `model` or `input` gets the 400 reply, and the reply is the same for any two upstream functions |
| `ProxyProperties.ForwardCopiesFields` | src/server.ts:48-60 | a `/responses` body with truthy `model` and `input` is forwarded; the upstream object reads the same five fields as the body; the reply is `Finish` of the upstream's result |
| `ProxyProperties.SuccessIsVerbatim` | src/server.ts:62 | on upstream success the whole request is answered 200 with the upstream body unchanged |
| `ProxyProperties.FailureIsMapped` | src/server.ts:63-81 | on upstream failure the whole request is answered with `MapError` of the thrown value, with a status in {400, 401, 429, 500} |
| `ProxyProperties.UndestructurableBodyIsInternalError` | src/server.ts:48 | a `/responses` body that reaches the handler as `undefined` throws inside the try block and is answered 500 `Internal server error` |
| `ProxyProperties.MapErrorTable` | src/server.ts:67-81 | 400, 401, 429 and 500 map to their own status and fixed message; any other status, or none, maps to 500 `Internal server error` |
| `ProxyProperties.MapErrorIgnoresMessage` | src/server.ts:63-81 | two thrown values with the same status map to the same reply, whatever their messages |
| `ProxyProperties.MapErrorIsStrict` | src/server.ts:73-81 | a status that is the string `"429"`, a missing status and the status 418 all map to 500 `Internal server error` |
| `ProxyProperties.HealthAlwaysOk` | src/server.ts:24-26 | every GET or HEAD `/health` request without conditional headers whose body the parser accepted is answered 200 with `status` `"ok"` |
| `ProxyProperties.ModelsAlwaysSame` | src/server.ts:28-39 | any two `/models` requests without conditional headers get identical replies, whatever the clock and the upstream are; the list is `gpt-4o`, `gpt-4o-mini`, `gpt-4-turbo`, `gpt-4`, `gpt-3.5-turbo` |
| `ProxyProperties.UnroutedIsNotFound` | src/server.ts:92-94 | every request that no route serves is answered 404 `Not found` |
| `ProxyProperties.RejectedBodyIsInternalError` | src/server.ts:21 | a body the parser refused is answered 500 `Internal server error`, on every path |
| `ProxyProperties.StrictParserRefusesScalars` | src/server.ts:21 | a body whose top-level JSON value is `null`, a boolean, a number or a string is answered with the global handler's 500 on every path, so it never reaches the `/responses` guard |
| `ProxyProperties.RoutesDisjoint` | src/server.ts:24-46 | no path matches both `/health` and `/models`, and no method is served by both a GET route and a POST route, so registration order does not decide anything |
| `ProxyProperties.RouteIgnoresCase` | src/server.ts:24 | `GET /HEALTH` reaches the health handler |
| `ProxyProperties.RouteAllowsTrailingSlash` | src/server.ts:28 | `HEAD /models/` reaches the models handler |
| `ProxyProperties.RoutePostResponses` | src/server.ts:46 | `POST /responses` reaches the responses handler |
| `ProxyProperties.RouteAllowsOneSlashOnly` | src/server.ts:24 | `GET /health//` reaches the 404 handler |
| `ProxyProperties.RouteChecksMethod` | src/server.ts:24-46 | `GET /responses` and `POST /health` reach the 404 handler |
| `ProxyProperties.ChatBodyReads` | src/server.ts:48 | destructuring the end-to-end script's body reads `model` `gpt-4o-mini`, the script's `input` text, `temperature` 0.1 and `max_output_tokens` 50, and `instructions` as `undefined` |
| `ProxyProperties.ChatBodyForwarded` | src/server.ts:48-60 | the end-to-end script's body (`model` `gpt-4o-mini`, the script's `input` text, `temperature` 0.1, `max_output_tokens` 50) is forwarded with exactly those four fields and no `instructions` |
| `ProxyProperties.ChatRequestRoundTrip` | src/server.ts:46-62 | that body, posted to `/responses` against an upstream that completes, gets the completion back unchanged with 200 |
| `ProxyProperties.EmptyObjectIsMissingFields` | src/server.ts:50-52 | the body `{}` is answered 400 `Missing required fields: model and input` |

## Left out

- Request headers are not modelled, and `Serve` describes requests without conditional headers. The framework answers a GET or HEAD of `/health` or `/models` with 304 and no body when the request's `If-None-Match` is `*` or matches the ETag of the reply it would send; `Serve`, `HealthAlwaysOk` and `ModelsAlwaysSame` do not cover such requests.
- The upstream SDK call (src/server.ts:9-11, 54) is not modelled. It is the parameter `upstream`. Retries, timeouts and the API key it reads from the environment belong to the SDK.
- The timestamp (src/server.ts:25) is the parameter `now`, because it reads the clock. Its ISO-8601 format is not checked.
- The body parser and its 10 MB limit (src/server.ts:21) are library behaviour. They appear only as `ParserRefuses`: the `Rejected` case of `Body`, and the strict mode's refusal of a top-level value that is not an object or an array.
- Proxy.Payload: the upstream object leaves out an optional field that is `undefined`, while the JavaScript literal at src/server.ts:54-60 always has all five members, some with the value `undefined`. Reading such a member gives `undefined` either way, and JSON serialisation drops it, so the upstream sees the same request.
- Whether a missing body reaches the handler as `undefined` or as `{}` depends on the version of the web framework. Both cases are modelled: `Undefined` gives 500 and `Parsed(JObject([]))` gives 400.
- Logging (`console.error`, `console.log`) and `app.listen` with the port configuration (src/server.ts:18, 97-102) are not modelled.
- The catch block of `/models` (src/server.ts:40-43) cannot be reached, because building a literal does not throw.
- A thrown value that is itself `undefined` or `null` is not modelled: reading its `status` would throw inside the catch block. `Thrown` always has a `status` property, which may be `undefined`, as every error the SDK or the runtime throws does.
- HEAD replies carry no body on the wire. The transport strips the body, so the model still returns it.
- Numbers are exact reals, not IEEE doubles. `temperature` and `max_output_tokens` are only copied, and the only numeric tests are truthiness and `=== 400`-style comparisons with integers. The sign of zero is not kept, and it makes no difference to those tests.
- Property reads of array indices, of `length` and of inherited `Object.prototype` members are not modelled. None of the five field names is one of them.
- Concurrency between requests and the `await` suspension are not modelled, because requests share no mutable state.
