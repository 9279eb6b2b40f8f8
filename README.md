# wundergroundnode request builder in Dafny

A model of the `Wunderground` client object of `lib/wundergroundnode.js`, a
fluent builder for Weather Underground REST requests.

- A client holds an immutable API key and one mutable field,
  `chainedRequests`: the pending resource tokens, in selection order.
- Eight selectors (`Conditions`, `HourlyForecast`, `HourlyTenDayForecast`,
  `Forecast`, `Almanac`, `Yesterday`, `Geolookup`, `Astronomy`) each push one
  fixed token (`"conditions/"`, `"hourly/"`, `"hourly10day/"`, `"forecast/"`,
  `"almanac/"`, `"yesterday/"`, `"geolookup/"`, `"astronomy/"`) and return the
  same client. All of them go through one `Select` method.
- `Request(query, callbackIsFunction)` runs the three checks in source order.
  A falsy query is a usage fault. An empty token list is a usage fault. A
  callback that is not a function is a programmer fault (the source throws).
  Otherwise the request is dispatched to the URL
  `http://api.wunderground.com/api/<key>/<tokens joined>q/<query>.json`.
  `Request` changes nothing on any path.
- `OnResponse(completion)` is the transport's completion handler. It empties
  the token list on every outcome. Then it picks the callback: success with
  the parsed body (no error, status 200), transport fault with the error (any
  error), or no callback at all (no error, another status).

Files:

- `Wrappers.dfy`: `Option`.
- `RequestUrl.dfy`: resources and their tokens, `Join` (the source's
  `join('')`), `BuildUrl`, and `ParseUrl`, an inverse of `BuildUrl`. The lemmas
  show that the URL determines the selected resources, their order and the
  query.
- `WundergroundNode.dfy`: the class `Wunderground`. A ghost field `selected`
  records the resources behind `chainedRequests`. `Valid()` says the two agree
  while only the selectors and the completion handler have touched the list.
- `Scenarios.dfy`: the repository's test cases, and a stubbed-transport run,
  replayed on fresh clients with their exact outcomes.

Modelling choices:

- The `query` argument is the datatype `Query`, split by JavaScript
  truthiness. `Falsy` stands for every falsy value: `false`, `null`,
  `undefined`, `0`, `NaN` and `""`. `Truthy(s)` stands for any other value,
  with `s` its string conversion. That string may be empty: `Truthy("")` is
  the query `[]`, which passes the check and yields a URL ending in `q/.json`.
- `_.isFunction(callback)` is the boolean input `callbackIsFunction`.
- Callbacks are not run. `Request` returns `UsageFault(message)` for the
  source's `callback(true, message)`, `ProgrammerFault(message)` for its
  `throw`, and `Dispatched(url)` for the hand-off to the HTTP transport.
- `OnResponse` returns `Some(Success(ParsedJson(body)))` for
  `callback(error, JSON.parse(body))`, `Some(TransportFault(e))` for
  `callback(error, false)`, and `None` when no callback is made.
  `ParsedJson` is a stand-in for the value `JSON.parse` returns. Being a
  constructor, it tells bodies apart by their text, so `"{}"` and `"{ }"`
  give different documents although they parse to equal values. No lemma
  depends on this.
- The transport's arguments are a `Completion(error, statusCode, body)`. The
  error is `None` for a falsy error.

## Model

| member | source | states |
|---|---|---|
| `WundergroundNode.Wunderground.constructor` | lib/wundergroundnode.js:4-10 | the client keeps the given key and starts with no pending tokens |
| `WundergroundNode.Wunderground.Select` | lib/wundergroundnode.js:12-50 | a selection appends exactly the resource's token at the end, keeps every earlier entry, returns the same client, and keeps the token list in step with the selected resources |
| `WundergroundNode.Wunderground.Conditions` | lib/wundergroundnode.js:12-15 | appends `"conditions/"` to the pending list and returns the same client |
| `WundergroundNode.Wunderground.HourlyForecast` | lib/wundergroundnode.js:17-20 | appends `"hourly/"` to the pending list and returns the same client |
| `WundergroundNode.Wunderground.HourlyTenDayForecast` | lib/wundergroundnode.js:22-25 | appends `"hourly10day/"` to the pending list and returns the same client |
| `WundergroundNode.Wunderground.Forecast` | lib/wundergroundnode.js:27-30 | appends `"forecast/"` to the pending list and returns the same client |
| `WundergroundNode.Wunderground.Almanac` | lib/wundergroundnode.js:32-35 | appends `"almanac/"` to the pending list and returns the same client |
| `WundergroundNode.Wunderground.Yesterday` | lib/wundergroundnode.js:37-40 | appends `"yesterday/"` to the pending list and returns the same client |
| `WundergroundNode.Wunderground.Geolookup` | lib/wundergroundnode.js:42-45 | appends `"geolookup/"` to the pending list and returns the same client |
| `WundergroundNode.Wunderground.Astronomy` | lib/wundergroundnode.js:47-50 | appends `"astronomy/"` to the pending list and returns the same client |
| `WundergroundNode.Wunderground.Request` | lib/wundergroundnode.js:58-77 | a falsy query is reported first (even with no resource selected), then an empty selection, then a non-function callback as a throw; only when all three pass is the URL built from the key, the tokens and the query and handed on; it starts with the base and key, ends with `q/<query>.json`, and parses back to exactly the selected resources and the query; no path changes the client |
| `WundergroundNode.Wunderground.OnResponse` | lib/wundergroundnode.js:77-86 | the pending list is empty afterwards on every outcome; no error with status 200 gives the success callback with the parsed body, any error gives the error callback with `false`, and no callback is made exactly when there is no error and the status is not 200 |
| `RequestUrl.Name` | lib/wundergroundnode.js:12-50 | the segment name inside every selector token (the token less its final slash) is non-empty, has no slash, and is never the query segment `q` |
| `RequestUrl.FromName` | lib/wundergroundnode.js:12-50 | a segment name is recognised only as the name of the resource whose token it is |
| `RequestUrl.TokensAppend` | lib/wundergroundnode.js:13-48 | selecting one more resource adds its token at the end of the tokens of the earlier selections, so order and duplicates are kept |
| `RequestUrl.Token` | lib/wundergroundnode.js:13-48 | each pushed token is its segment name followed by one slash; with `RequestUrl.Name` that slash is the token's only one |
| `RequestUrl.Tokens` | lib/wundergroundnode.js:13-48 | the list left by a chain of selectors has one token per selector call |
| `RequestUrl.TokensAt` | lib/wundergroundnode.js:13-48 | the token at each position of that list is the token of the selector called at that position |
| `RequestUrl.Join` | lib/wundergroundnode.js:73 | `join('')` uses the empty separator: the joined path has exactly as many characters as the tokens together |
| `RequestUrl.UrlAfterSelect` | lib/wundergroundnode.js:73 | one more selection before the request lengthens the URL's path by exactly the new token, placed after the earlier ones and before `q/` |
| `RequestUrl.JoinAppend` | lib/wundergroundnode.js:73 | joining the tokens after one more push adds that token at the end of the joined path |
| `RequestUrl.BuildUrl` | lib/wundergroundnode.js:73 | the URL starts with the base address, the key and a slash, ends with `q/<query>.json`, and has exactly the length of its parts |
| `RequestUrl.ParsePathOfTokens` | lib/wundergroundnode.js:73 | the path after the key is read back as the selected resources, in order, followed by the query |
| `RequestUrl.ParseBuiltUrl` | lib/wundergroundnode.js:73 | parsing a built URL returns the selected resources, in order, and the query |
| `RequestUrl.ParseUrlSound` | lib/wundergroundnode.js:73 | any URL the parser accepts is the URL built from what it returns |
| `RequestUrl.UrlDeterminesRequest` | lib/wundergroundnode.js:73 | two requests give the same URL only when they select the same resources in the same order for the same query |
| `WundergroundScenarios.SingleResource` | test/testWundergroundnode.js:32-66 | one selector then a request for `84111` dispatches `<base><key>/<token>q/84111.json` |
| `WundergroundScenarios.ChainedResources` | test/testWundergroundnode.js:68-81 | five chained selectors appear in the URL in call order |
| `WundergroundScenarios.RepeatedSelection` | lib/wundergroundnode.js:12-50 | selecting `conditions`, `forecast`, `conditions` leaves all three tokens, in that order |
| `WundergroundScenarios.WithoutResource` | test/testWundergroundnode.js:83-93 | a request on a fresh client is the usage fault "You must specify a resource to request first ..." |
| `WundergroundScenarios.WithoutQuery` | test/testWundergroundnode.js:95-105 | a request with query `false` is the usage fault "You must supply a query", although a resource is selected |
| `WundergroundScenarios.StubbedSuccess` | lib/wundergroundnode.js:73-81 | `conditions` then `84111` against a transport answering 200 gives the success callback with the parsed body, and the pending list is empty |
| `WundergroundScenarios.StubbedOtherStatus` | lib/wundergroundnode.js:77-86 | a transport answering another status with no error makes no callback, and still empties the pending list |

## Left out

- The HTTP transport (`request`, lib/wundergroundnode.js:1,77) is network I/O. The model stops at `Dispatched(url)`, and the completion event is the input of `OnResponse`.
- `JSON.parse` is a foreign call. `ParsedJson(body)` stands for its result; a body it cannot parse, which would throw inside the handler after the list is cleared, is not modelled.
- `console.log` of the URL (lib/wundergroundnode.js:74) is output only.
- `_.isFunction` is not modelled; its answer is the input `callbackIsFunction`.
- `WundergroundNode.Wunderground.Request`: on the two usage-fault paths the source calls the callback before checking that it is a function. With a non-function callback that call throws a host `TypeError` instead of reaching the callback; the model reports the usage fault and does not model that throw.
- `WundergroundNode.Wunderground.Request`: the source reads the list as `that.chainedRequests` for the check and `this.chainedRequests` for the URL. The model assumes the usual method-call form, where both are the client.
- `WundergroundNode.Wunderground.Select`: the eight selectors push onto `this.chainedRequests` (lib/wundergroundnode.js:13-49). Under `"use strict"` a detached call such as `var f = wu.conditions; f()` has no `this` and throws; the model covers only the method-call form `wu.conditions()`.
- `WundergroundNode.Wunderground.Request`: a Symbol query is truthy, but the string concatenation at lib/wundergroundnode.js:73 throws a `TypeError` on it. `Query` has no value for a Symbol, so that throw is not modelled.
- Only one outstanding request per client is modelled. Overlapping requests share the one list, and the first completion clears it for all; this interleaving is not modelled. The callback each completion uses is the one given to its own `Request`.
- `WundergroundNode.Wunderground.OnResponse`: the source compares the status with `==`; the model takes the status as a number, as the transport supplies it.
- The test file's key loading and cache (test/testWundergroundnode.js:6-25) are file I/O and test harness code. Its assertions on live response keys depend on the remote service, not on this code.
