/**
 * The request URL of the Weather Underground client: the fixed resource
 * tokens, the concatenation that builds the URL, and a parser that recovers
 * the selected resources and the query from a URL (the partner that shows the
 * URL loses nothing).
 */
module RequestUrl {
  import opened Wrappers

  /** The resources the client can select. */
  datatype Resource =
    | Conditions
    | HourlyForecast
    | HourlyTenDayForecast
    | Forecast
    | Almanac
    | Yesterday
    | Geolookup
    | Astronomy

  const BaseUrl: string := "http://api.wunderground.com/api/"
  const Format: string := ".json"
  /** The path segment that introduces the query. */
  const QueryName: string := "q"

  /** The path segment name of a resource (its token without the trailing slash): never empty, never `q`, free of slashes. */
  function Name(r: Resource): (n: string)
    ensures n != [] && n != QueryName
    ensures forall j :: 0 <= j < |n| ==> n[j] != '/'
  {
    match r
    case Conditions => "conditions"
    case HourlyForecast => "hourly"
    case HourlyTenDayForecast => "hourly10day"
    case Forecast => "forecast"
    case Almanac => "almanac"
    case Yesterday => "yesterday"
    case Geolookup => "geolookup"
    case Astronomy => "astronomy"
  }

  /** The token a selector pushes onto the pending list: its segment name and a slash. */
  function Token(r: Resource): (t: string)
    ensures |t| == |Name(r)| + 1 && t[|Name(r)|] == '/'
  {
    Name(r) + "/"
  }

  /** The resource whose segment name is `name`, if any. */
  function FromName(name: string): (r: Option<Resource>)
    ensures r.Some? ==> Name(r.value) == name
  {
    if name == "conditions" then Some(Conditions)
    else if name == "hourly" then Some(HourlyForecast)
    else if name == "hourly10day" then Some(HourlyTenDayForecast)
    else if name == "forecast" then Some(Forecast)
    else if name == "almanac" then Some(Almanac)
    else if name == "yesterday" then Some(Yesterday)
    else if name == "geolookup" then Some(Geolookup)
    else if name == "astronomy" then Some(Astronomy)
    else None
  }

  lemma FromNameOfName(r: Resource)
    ensures FromName(Name(r)) == Some(r)
  {
  }

  /** The tokens of a sequence of selections, in selection order. */
  function Tokens(rs: seq<Resource>): (ts: seq<string>)
    ensures |ts| == |rs|
  {
    if rs == [] then [] else [Token(rs[0])] + Tokens(rs[1..])
  }

  /** The token at each position is the token of the resource selected at that position. */
  lemma {:induction false} TokensAt(rs: seq<Resource>, i: nat)
    requires i < |rs|
    ensures Tokens(rs)[i] == Token(rs[i])
  {
    if i > 0 {
      TokensAt(rs[1..], i - 1);
    }
  }

  /** Selecting one more resource adds its token at the end and keeps the rest. */
  lemma {:induction false} TokensAppend(rs: seq<Resource>, r: Resource)
    ensures Tokens(rs + [r]) == Tokens(rs) + [Token(r)]
  {
    if rs != [] {
      assert (rs + [r])[1..] == rs[1..] + [r];
      TokensAppend(rs[1..], r);
    }
  }

  /** The total number of characters in `ts`. */
  function TotalLength(ts: seq<string>): nat
  {
    if ts == [] then 0 else |ts[0]| + TotalLength(ts[1..])
  }

  /** `join('')` over a list of strings: the empty separator adds no characters. */
  function Join(ts: seq<string>): (s: string)
    ensures |s| == TotalLength(ts)
  {
    if ts == [] then "" else ts[0] + Join(ts[1..])
  }

  lemma {:induction false} JoinAppend(ts: seq<string>, t: string)
    ensures Join(ts + [t]) == Join(ts) + t
  {
    if ts != [] {
      assert (ts + [t])[1..] == ts[1..] + [t];
      JoinAppend(ts[1..], t);
    }
  }

  predicate EndsWith(s: string, suffix: string)
  {
    |suffix| <= |s| && s[|s| - |suffix|..] == suffix
  }

  /** The part of the URL before the tokens. */
  function KeyPrefix(apikey: string): string
  {
    BaseUrl + apikey + "/"
  }

  /** The URL of a request for `tokens` about `query`, with the given API key. */
  function BuildUrl(apikey: string, tokens: seq<string>, query: string): (url: string)
    ensures KeyPrefix(apikey) <= url
    ensures EndsWith(url, QueryName + "/" + query + Format)
    ensures |url| == |KeyPrefix(apikey)| + |Join(tokens)| + |QueryName| + 1 + |query| + |Format|
  {
    var url := KeyPrefix(apikey) + Join(tokens) + QueryName + "/" + query + Format;
    assert url == (KeyPrefix(apikey) + Join(tokens)) + (QueryName + "/" + query + Format);
    url
  }

  /** The index of the first slash in `s`, or `|s|` when there is none. */
  function FirstSlash(s: string): (i: nat)
    ensures i <= |s|
    ensures i < |s| ==> s[i] == '/'
  {
    if s == [] then 0
    else if s[0] == '/' then 0
    else 1 + FirstSlash(s[1..])
  }

  lemma {:induction false} FirstSlashAfter(name: string, rest: string)
    requires forall j :: 0 <= j < |name| ==> name[j] != '/'
    ensures FirstSlash(name + "/" + rest) == |name|
  {
    if name != [] {
      assert (name + "/" + rest)[1..] == name[1..] + "/" + rest;
      FirstSlashAfter(name[1..], rest);
    }
  }

  /**
   * Reads the path after the key: a run of resource segments, then the query
   * segment, then the query itself (which may contain anything).
   */
  function ParsePath(s: string): (r: Option<(seq<Resource>, string)>)
    decreases |s|
  {
    var i := FirstSlash(s);
    if i == |s| then None
    else if s[..i] == QueryName then Some(([], s[i + 1..]))
    else match FromName(s[..i])
      case None => None
      case Some(res) =>
        match ParsePath(s[i + 1..])
        case None => None
        case Some(p) => Some(([res] + p.0, p.1))
  }

  /** Recovers the selected resources and the query from a URL built with `apikey`. */
  function ParseUrl(apikey: string, url: string): (r: Option<(seq<Resource>, string)>)
  {
    var p := KeyPrefix(apikey);
    if |p| + |Format| <= |url| && p <= url && EndsWith(url, Format)
    then ParsePath(url[|p|..|url| - |Format|])
    else None
  }

  lemma {:induction false} ParsePathOfTokens(rs: seq<Resource>, query: string)
    ensures ParsePath(Join(Tokens(rs)) + QueryName + "/" + query) == Some((rs, query))
  {
    if rs == [] {
      assert Join(Tokens(rs)) + QueryName + "/" + query == QueryName + "/" + query;
      ParsePathOfQuery(query);
    } else {
      var rest := Join(Tokens(rs[1..])) + QueryName + "/" + query;
      ConsPath(Name(rs[0]), rest, rs[0], rs[1..], query);
      assert [rs[0]] + rs[1..] == rs;
      ParsePathOfTokens(rs[1..], query);
      ParsePathOfSegment(rs[0], rest);
    }
  }

  lemma ParsePathOfQuery(query: string)
    ensures ParsePath(QueryName + "/" + query) == Some(([], query))
  {
    var s := QueryName + "/" + query;
    FirstSlashAfter(QueryName, query);
    assert s[..1] == QueryName && s[2..] == query;
  }

  lemma ParsePathOfSegment(r: Resource, rest: string)
    ensures ParsePath(Name(r) + "/" + rest) ==
            match ParsePath(rest)
            case None => None
            case Some(p) => Some(([r] + p.0, p.1))
  {
    var s := Name(r) + "/" + rest;
    FirstSlashAfter(Name(r), rest);
    assert s[..|Name(r)|] == Name(r) && s[|Name(r)| + 1..] == rest;
    FromNameOfName(r);
  }

  /** Every selection and query survive the URL: parsing a built URL gives them back. */
  lemma ParseBuiltUrl(apikey: string, rs: seq<Resource>, query: string)
    ensures ParseUrl(apikey, BuildUrl(apikey, Tokens(rs), query)) == Some((rs, query))
  {
    BuildUrlParts(apikey, Tokens(rs), query);
    ParseUrlOfPath(apikey, Join(Tokens(rs)) + QueryName + "/" + query);
    ParsePathOfTokens(rs, query);
  }

  lemma ParseUrlOfPath(apikey: string, path: string)
    ensures ParseUrl(apikey, KeyPrefix(apikey) + path + Format) == ParsePath(path)
  {
    var p, url := KeyPrefix(apikey), KeyPrefix(apikey) + path + Format;
    assert url[..|p|] == p;
    assert url[|url| - |Format|..] == Format;
    assert url[|p|..|url| - |Format|] == path;
  }

  lemma {:induction false} ParsePathSound(s: string, rs: seq<Resource>, query: string)
    requires ParsePath(s) == Some((rs, query))
    ensures s == Join(Tokens(rs)) + QueryName + "/" + query
    decreases |s|
  {
    var i := ParsePathStep(s, rs, query);
    if rs != [] {
      ParsePathSound(s[i + 1..], rs[1..], query);
      ConsPath(s[..i], s[i + 1..], rs[0], rs[1..], query);
      assert [rs[0]] + rs[1..] == rs;
    }
  }

  lemma ConsPath(name: string, rest: string, r: Resource, rs: seq<Resource>, query: string)
    requires name == Name(r) && rest == Join(Tokens(rs)) + QueryName + "/" + query
    ensures name + "/" + rest == Join(Tokens([r] + rs)) + QueryName + "/" + query
  {
    JoinTokensCons(r, rs);
  }

  /** One step of the parser: the first segment, and what the rest of the path parses to. */
  lemma ParsePathStep(s: string, rs: seq<Resource>, query: string) returns (i: nat)
    requires ParsePath(s) == Some((rs, query))
    ensures i < |s| && s == s[..i] + "/" + s[i + 1..]
    ensures rs == [] ==> s[..i] == QueryName && query == s[i + 1..]
    ensures rs != [] ==> s[..i] == Name(rs[0]) && ParsePath(s[i + 1..]) == Some((rs[1..], query))
  {
    i := FirstSlash(s);
    SplitAtSlash(s, i);
  }

  lemma SplitAtSlash(s: string, i: nat)
    requires i < |s| && s[i] == '/'
    ensures s == s[..i] + "/" + s[i + 1..]
  {
  }

  lemma JoinTokensCons(r: Resource, rs: seq<Resource>)
    ensures Join(Tokens([r] + rs)) == Token(r) + Join(Tokens(rs))
  {
    assert ([r] + rs)[1..] == rs;
  }

  /** A URL the parser accepts is exactly the URL built from what it returns. */
  lemma ParseUrlSound(apikey: string, url: string, rs: seq<Resource>, query: string)
    requires ParseUrl(apikey, url) == Some((rs, query))
    ensures url == BuildUrl(apikey, Tokens(rs), query)
  {
    var p := KeyPrefix(apikey);
    var middle := url[|p|..|url| - |Format|];
    SplitUrl(p, url);
    ParsePathSound(middle, rs, query);
    BuildUrlParts(apikey, Tokens(rs), query);
  }

  /** One more selection before the request lengthens the URL's path by exactly the new token. */
  lemma UrlAfterSelect(apikey: string, tokens: seq<string>, r: Resource, query: string)
    ensures BuildUrl(apikey, tokens + [Token(r)], query)
            == KeyPrefix(apikey) + (Join(tokens) + Token(r)) + (QueryName + "/" + query + Format)
  {
    JoinAppend(tokens, Token(r));
    BuildUrlParts(apikey, tokens + [Token(r)], query);
  }

  lemma SplitUrl(p: string, url: string)
    requires |p| + |Format| <= |url| && p <= url && EndsWith(url, Format)
    ensures url == p + url[|p|..|url| - |Format|] + Format
  {
    assert url == url[..|p|] + url[|p|..|url| - |Format|] + url[|url| - |Format|..];
  }

  lemma BuildUrlParts(apikey: string, tokens: seq<string>, query: string)
    ensures BuildUrl(apikey, tokens, query) == KeyPrefix(apikey) + (Join(tokens) + QueryName + "/" + query) + Format
  {
  }

  /** Two requests give the same URL only when they select the same resources, in the same order, for the same query. */
  lemma UrlDeterminesRequest(apikey: string, rs1: seq<Resource>, q1: string, rs2: seq<Resource>, q2: string)
    requires BuildUrl(apikey, Tokens(rs1), q1) == BuildUrl(apikey, Tokens(rs2), q2)
    ensures rs1 == rs2 && q1 == q2
  {
    ParseBuiltUrl(apikey, rs1, q1);
    ParseBuiltUrl(apikey, rs2, q2);
  }
}
