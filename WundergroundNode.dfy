/**
 * The fluent request builder of the Weather Underground client: a client
 * object holding an API key and the list of pending resource tokens, eight
 * selectors that push a token and return the client, the terminal `Request`
 * that validates its arguments and builds the URL, and the transport's
 * completion handler that clears the list and picks the callback.
 *
 * Callbacks are not run: `Request` and `OnResponse` return which callback
 * invocation the client makes (or that it throws), and the HTTP transport is
 * the caller that later delivers a `Completion` to `OnResponse`.
 */
module WundergroundNode {
  import opened Wrappers
  import opened RequestUrl

  /**
   * The `query` argument, split by JavaScript truthiness. `Falsy` stands for
   * every falsy value: `false`, `null`, `undefined`, `0`, `NaN` and `""`.
   * `Truthy(text)` stands for any other value, holding the string that the URL
   * concatenation makes of it; that string may be empty, as it is for `[]`.
   */
  datatype Query = Falsy | Truthy(text: string)

  /** What the transport hands to the completion handler: `(error, response.statusCode, body)`. */
  datatype Completion = Completion(error: Option<string>, statusCode: int, body: string)

  /** The value `JSON.parse` returns for a response body; parsing itself is not modelled. */
  datatype Document = ParsedJson(text: string)

  /** A callback invocation made by the completion handler. */
  datatype Callback =
    | Success(document: Document)   // callback(error, JSON.parse(body)) with a falsy error
    | TransportFault(cause: string) // callback(error, false)

  /** What one call of `Request` does. */
  datatype RequestOutcome =
    | UsageFault(message: string)        // callback(true, message), nothing sent
    | ProgrammerFault(message: string)   // throws message, nothing sent
    | Dispatched(url: string)            // the transport is asked to GET url

  const NoQueryMessage: string := "You must supply a query"
  const NoResourceMessage: string := "You must specify a resource to request first (e.g., wu.conditions().req...)"
  const NotAFunctionMessage: string := "The second argument must be a function"

  /** The success status the completion handler looks for. */
  const StatusOk: int := 200

  class Wunderground {
    const apikey: string
    /** The pending resource tokens, in the order they were selected. */
    var chainedRequests: seq<string>
    /** The resources behind `chainedRequests` while only the selectors have changed it. */
    ghost var selected: seq<Resource>

    ghost predicate Valid()
      reads this
    {
      chainedRequests == Tokens(selected)
    }

    constructor (apikey: string)
      ensures this.apikey == apikey
      ensures chainedRequests == [] && selected == [] && Valid()
    {
      this.apikey := apikey;
      chainedRequests := [];
      selected := [];
    }

    /** Pushes the token of `r` and returns this client, which every selector does. */
    method Select(r: Resource) returns (w: Wunderground)
      modifies this
      ensures w == this
      ensures chainedRequests == old(chainedRequests) + [Token(r)]
      ensures selected == old(selected) + [r]
      ensures old(Valid()) ==> Valid()
    {
      TokensAppend(selected, r);
      chainedRequests := chainedRequests + [Token(r)];
      selected := selected + [r];
      w := this;
    }

    method Conditions() returns (w: Wunderground)
      modifies this
      ensures w == this
      ensures chainedRequests == old(chainedRequests) + ["conditions/"]
      ensures selected == old(selected) + [Resource.Conditions]
      ensures old(Valid()) ==> Valid()
    {
      assert Token(Resource.Conditions) == "conditions/";
      w := Select(Resource.Conditions);
    }

    method HourlyForecast() returns (w: Wunderground)
      modifies this
      ensures w == this
      ensures chainedRequests == old(chainedRequests) + ["hourly/"]
      ensures selected == old(selected) + [Resource.HourlyForecast]
      ensures old(Valid()) ==> Valid()
    {
      assert Token(Resource.HourlyForecast) == "hourly/";
      w := Select(Resource.HourlyForecast);
    }

    method HourlyTenDayForecast() returns (w: Wunderground)
      modifies this
      ensures w == this
      ensures chainedRequests == old(chainedRequests) + ["hourly10day/"]
      ensures selected == old(selected) + [Resource.HourlyTenDayForecast]
      ensures old(Valid()) ==> Valid()
    {
      assert Token(Resource.HourlyTenDayForecast) == "hourly10day/";
      w := Select(Resource.HourlyTenDayForecast);
    }

    method Forecast() returns (w: Wunderground)
      modifies this
      ensures w == this
      ensures chainedRequests == old(chainedRequests) + ["forecast/"]
      ensures selected == old(selected) + [Resource.Forecast]
      ensures old(Valid()) ==> Valid()
    {
      assert Token(Resource.Forecast) == "forecast/";
      w := Select(Resource.Forecast);
    }

    method Almanac() returns (w: Wunderground)
      modifies this
      ensures w == this
      ensures chainedRequests == old(chainedRequests) + ["almanac/"]
      ensures selected == old(selected) + [Resource.Almanac]
      ensures old(Valid()) ==> Valid()
    {
      assert Token(Resource.Almanac) == "almanac/";
      w := Select(Resource.Almanac);
    }

    method Yesterday() returns (w: Wunderground)
      modifies this
      ensures w == this
      ensures chainedRequests == old(chainedRequests) + ["yesterday/"]
      ensures selected == old(selected) + [Resource.Yesterday]
      ensures old(Valid()) ==> Valid()
    {
      assert Token(Resource.Yesterday) == "yesterday/";
      w := Select(Resource.Yesterday);
    }

    method Geolookup() returns (w: Wunderground)
      modifies this
      ensures w == this
      ensures chainedRequests == old(chainedRequests) + ["geolookup/"]
      ensures selected == old(selected) + [Resource.Geolookup]
      ensures old(Valid()) ==> Valid()
    {
      assert Token(Resource.Geolookup) == "geolookup/";
      w := Select(Resource.Geolookup);
    }

    method Astronomy() returns (w: Wunderground)
      modifies this
      ensures w == this
      ensures chainedRequests == old(chainedRequests) + ["astronomy/"]
      ensures selected == old(selected) + [Resource.Astronomy]
      ensures old(Valid()) ==> Valid()
    {
      assert Token(Resource.Astronomy) == "astronomy/";
      w := Select(Resource.Astronomy);
    }

    /**
     * The terminal call. The checks run in order (query, then resources, then
     * the callback) and the first that fails decides the outcome; no outcome
     * changes the client, the pending list included.
     */
    method Request(query: Query, callbackIsFunction: bool) returns (outcome: RequestOutcome)
      ensures !query.Truthy? ==> outcome == UsageFault(NoQueryMessage)
      ensures query.Truthy? && chainedRequests == [] ==> outcome == UsageFault(NoResourceMessage)
      ensures query.Truthy? && chainedRequests != [] && !callbackIsFunction ==>
                outcome == ProgrammerFault(NotAFunctionMessage)
      ensures query.Truthy? && chainedRequests != [] && callbackIsFunction ==>
                outcome == Dispatched(BuildUrl(apikey, chainedRequests, query.text))
      ensures outcome.Dispatched? ==>
                KeyPrefix(apikey) <= outcome.url && EndsWith(outcome.url, QueryName + "/" + query.text + Format)
      ensures outcome.Dispatched? && Valid() ==>
                ParseUrl(apikey, outcome.url) == Some((selected, query.text))
    {
      if !query.Truthy? {
        return UsageFault(NoQueryMessage);
      } else if chainedRequests == [] {
        return UsageFault(NoResourceMessage);
      } else if !callbackIsFunction {
        return ProgrammerFault(NotAFunctionMessage);
      }
      outcome := Dispatched(BuildUrl(apikey, chainedRequests, query.text));
      if Valid() {
        ParseBuiltUrl(apikey, selected, query.text);
      }
    }

    /**
     * The transport's completion handler for a dispatched request: it empties
     * the pending list first, whatever the outcome, then invokes the callback
     * on success or on a transport error, and not at all when there is no
     * error but the status is not 200.
     */
    method OnResponse(c: Completion) returns (cb: Option<Callback>)
      modifies this
      ensures chainedRequests == [] && selected == [] && Valid()
      ensures c.error == None && c.statusCode == StatusOk ==> cb == Some(Success(ParsedJson(c.body)))
      ensures c.error.Some? ==> cb == Some(TransportFault(c.error.value))
      ensures cb == None <==> c.error == None && c.statusCode != StatusOk
    {
      chainedRequests := [];
      selected := [];
      if c.error == None && c.statusCode == StatusOk {
        cb := Some(Success(ParsedJson(c.body)));
      } else if c.error.Some? {
        cb := Some(TransportFault(c.error.value));
      } else {
        cb := None;
      }
    }
  }
}
