/**
 * The client's own test scenarios, replayed against the model: each method
 * builds a fresh client, drives it as the test does, and states the exact
 * outcome. The transport is replaced by a `Completion` chosen by the scenario.
 */
module WundergroundScenarios {
  import opened Wrappers
  import opened RequestUrl
  import opened WundergroundNode

  const Zip: string := "84111"

  lemma ZipUrl(key: string, ts: seq<string>)
    ensures BuildUrl(key, ts, Zip) == BaseUrl + key + "/" + Join(ts) + "q/" + Zip + ".json"
  {
    BuildUrlParts(key, ts, Zip);
    assert QueryName + "/" == "q/";
  }

  lemma ChainedJoin(ts: seq<string>)
    requires ts == ["hourly/", "hourly10day/", "forecast/", "almanac/", "yesterday/"]
    ensures Join(ts) == "hourly/" + "hourly10day/" + "forecast/" + "almanac/" + "yesterday/"
  {
    assert Join(ts[4..]) == "yesterday/";
    assert Join(ts[3..]) == "almanac/" + "yesterday/";
    assert Join(ts[2..]) == "forecast/" + "almanac/" + "yesterday/";
    assert Join(ts[1..]) == "hourly10day/" + "forecast/" + "almanac/" + "yesterday/";
  }

  lemma ChainedUrl(key: string, ts: seq<string>)
    requires ts == ["hourly/", "hourly10day/", "forecast/", "almanac/", "yesterday/"]
    ensures BuildUrl(key, ts, Zip) == BaseUrl + key + "/" + "hourly/" + "hourly10day/" + "forecast/" + "almanac/"
                                      + "yesterday/" + "q/" + Zip + ".json"
  {
    ChainedJoin(ts);
    ZipUrl(key, ts);
  }

  /** One selector, then a request for the zip code: the URL names that one resource. */
  method SingleResource(key: string, r: Resource) returns (outcome: RequestOutcome)
    ensures outcome == Dispatched(BaseUrl + key + "/" + Token(r) + "q/" + Zip + ".json")
  {
    var wu := new Wunderground(key);
    var w: Wunderground;
    match r {
      case Conditions => w := wu.Conditions();
      case HourlyForecast => w := wu.HourlyForecast();
      case HourlyTenDayForecast => w := wu.HourlyTenDayForecast();
      case Forecast => w := wu.Forecast();
      case Almanac => w := wu.Almanac();
      case Yesterday => w := wu.Yesterday();
      case Geolookup => w := wu.Geolookup();
      case Astronomy => w := wu.Astronomy();
    }
    assert w.chainedRequests == [Token(r)];
    outcome := w.Request(Truthy(Zip), true);
    assert Join([Token(r)]) == Token(r);
    ZipUrl(key, [Token(r)]);
  }

  /** Five chained selectors: their tokens appear in the URL in call order. */
  method ChainedResources(key: string) returns (outcome: RequestOutcome)
    ensures outcome == Dispatched(BaseUrl + key + "/" + "hourly/" + "hourly10day/" + "forecast/" + "almanac/"
                                  + "yesterday/" + "q/" + Zip + ".json")
  {
    var wu := new Wunderground(key);
    var w := wu.HourlyForecast();
    w := w.HourlyTenDayForecast();
    w := w.Forecast();
    w := w.Almanac();
    w := w.Yesterday();
    var ts := ["hourly/", "hourly10day/", "forecast/", "almanac/", "yesterday/"];
    assert w.chainedRequests == ts;
    outcome := w.Request(Truthy(Zip), true);
    ChainedUrl(key, ts);
  }

  /** Selecting a resource twice keeps both tokens, each where it was pushed. */
  method RepeatedSelection(key: string) returns (pending: seq<string>)
    ensures pending == ["conditions/", "forecast/", "conditions/"]
  {
    var wu := new Wunderground(key);
    var w := wu.Conditions();
    w := w.Forecast();
    w := w.Conditions();
    pending := w.chainedRequests;
  }

  /** A request with no resource selected is a usage fault. */
  method WithoutResource(key: string) returns (outcome: RequestOutcome)
    ensures outcome == UsageFault(NoResourceMessage)
  {
    var wu := new Wunderground(key);
    outcome := wu.Request(Truthy(Zip), true);
  }

  /** A request whose query is `false` is a usage fault, although a resource is selected. */
  method WithoutQuery(key: string) returns (outcome: RequestOutcome)
    ensures outcome == UsageFault(NoQueryMessage)
  {
    var wu := new Wunderground(key);
    var w := wu.Conditions();
    outcome := w.Request(Falsy, true);
  }

  /** A stub transport answering 200: the callback gets the parsed body and the list is empty again. */
  method StubbedSuccess(key: string) returns (outcome: RequestOutcome, cb: Option<Callback>, pending: seq<string>)
    ensures outcome == Dispatched(BaseUrl + key + "/" + "conditions/" + "q/" + Zip + ".json")
    ensures cb == Some(Success(ParsedJson("{\"current_observation\":{}}")))
    ensures pending == []
  {
    var wu := new Wunderground(key);
    var w := wu.Conditions();
    outcome := w.Request(Truthy(Zip), true);
    assert Join(["conditions/"]) == "conditions/";
    ZipUrl(key, ["conditions/"]);
    cb := w.OnResponse(Completion(None, StatusOk, "{\"current_observation\":{}}"));
    pending := w.chainedRequests;
  }

  /** A stub transport answering another status without an error: no callback, yet the list is emptied. */
  method StubbedOtherStatus(key: string, status: int, body: string) returns (cb: Option<Callback>, pending: seq<string>)
    requires status != StatusOk
    ensures cb == None
    ensures pending == []
  {
    var wu := new Wunderground(key);
    var w := wu.Forecast();
    var outcome := w.Request(Truthy(Zip), true);
    cb := w.OnResponse(Completion(None, status, body));
    pending := w.chainedRequests;
  }
}
