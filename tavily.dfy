/** The search server: the API-key check at start-up, the request that
    `search_web` and `search_news` send, and the mapping of the decoded
    response into `{title, url, content}` records. */
module Tavily {
  import opened Wrappers
  import opened Shutdown

  const ApiKeyVariable: string := "TAVILY_API_KEY"
  const MissingKeyMessage: string := "TAVILY_API_KEY environment variable is not set"
  const SearchUrl: string := "https://api.tavily.com/search"
  const BearerPrefix: string := "Bearer "
  const DefaultMaxResults: int := 10
  const WebErrorPrefix: string := "Error in web search: "
  const NewsErrorPrefix: string := "Error in news search: "

  /** The JSON values that occur in a request payload. */
  datatype Json = JString(s: string) | JBool(b: bool) | JInt(i: int)

  datatype Request = Request(url: string, headers: map<string, string>, payload: map<string, Json>)

  /** One element of the decoded `results` list; a key absent from the JSON
      object is None. */
  datatype RawResult = RawResult(title: Option<string>, url: Option<string>, content: Option<string>)

  /** The decoded response body; `results` is None when the key is absent. */
  datatype SearchData = SearchData(results: Option<seq<RawResult>>)

  datatype SearchResult = SearchResult(title: string, url: string, content: string)
  datatype SearchResponse = SearchResponse(results: seq<SearchResult>)

  /** Outcome of `run_server`: either the server runs with the key its tools
      capture, or it stops before any server or tool is created. */
  datatype ServerStart = Serving(apiKey: string) | NotStarted(error: string)

  /** `os.environ.get("TAVILY_API_KEY")` followed by `if not api_key: raise`. */
  function RunServer(env: map<string, string>): (s: ServerStart)
    ensures s.Serving? <==> ApiKeyVariable in env && env[ApiKeyVariable] != ""
    ensures s.Serving? ==> s.apiKey == env[ApiKeyVariable] && s.apiKey != ""
    ensures s.NotStarted? ==> s.error == MissingKeyMessage
  {
    if ApiKeyVariable in env && env[ApiKeyVariable] != "" then Serving(env[ApiKeyVariable])
    else NotStarted(MissingKeyMessage)
  }

  /** The headers of every search request. */
  function Headers(apiKey: string): (h: map<string, string>)
    ensures h.Keys == {"content-type", "Authorization"}
    ensures h["content-type"] == "application/json"
    ensures IsPrefix(BearerPrefix, h["Authorization"])
    // The key is recovered from the header by dropping "Bearer ".
    ensures h["Authorization"][|BearerPrefix|..] == apiKey
  {
    map["content-type" := "application/json", "Authorization" := BearerPrefix + apiKey]
  }

  /** The `search_web` payload. */
  function WebPayload(query: string, maxResults: int): (p: map<string, Json>)
    ensures p.Keys == {"query", "search_depth", "include_answer", "include_images", "max_results"}
    ensures p["query"] == JString(query) && p["max_results"] == JInt(maxResults)
    ensures p["search_depth"] == JString("advanced")
    ensures p["include_answer"] == JBool(true) && p["include_images"] == JBool(false)
  {
    map[
      "query" := JString(query),
      "search_depth" := JString("advanced"),
      "include_answer" := JBool(true),
      "include_images" := JBool(false),
      "max_results" := JInt(maxResults)]
  }

  /** The `search_news` payload. */
  function NewsPayload(query: string, maxResults: int): (p: map<string, Json>)
    ensures "search_type" in p && p["search_type"] == JString("news")
  {
    map[
      "query" := JString(query),
      "search_depth" := JString("advanced"),
      "include_answer" := JBool(true),
      "include_images" := JBool(false),
      "max_results" := JInt(maxResults),
      "search_type" := JString("news")]
  }

  /** The news payload is the web payload plus exactly one key, `search_type`. */
  lemma NewsPayloadExtendsWeb(query: string, maxResults: int)
    ensures "search_type" !in WebPayload(query, maxResults)
    ensures NewsPayload(query, maxResults) == WebPayload(query, maxResults)["search_type" := JString("news")]
  {
    var w := WebPayload(query, maxResults);
    var n := NewsPayload(query, maxResults);
    assert n.Keys == w.Keys + {"search_type"};
  }

  /** The request `search_web` posts. */
  function WebRequest(apiKey: string, query: string, maxResults: int): (r: Request)
    ensures r.url == SearchUrl
    ensures "Authorization" in r.headers && r.headers["Authorization"] == BearerPrefix + apiKey
    ensures "search_type" !in r.payload
    ensures "query" in r.payload && r.payload["query"] == JString(query)
    ensures "max_results" in r.payload && r.payload["max_results"] == JInt(maxResults)
  {
    Request(SearchUrl, Headers(apiKey), WebPayload(query, maxResults))
  }

  /** The request `search_news` posts: the web request with `search_type` added. */
  function NewsRequest(apiKey: string, query: string, maxResults: int): (r: Request)
    ensures r.url == SearchUrl && r.headers == WebRequest(apiKey, query, maxResults).headers
    ensures r.payload == WebRequest(apiKey, query, maxResults).payload["search_type" := JString("news")]
  {
    NewsPayloadExtendsWeb(query, maxResults);
    Request(SearchUrl, Headers(apiKey), NewsPayload(query, maxResults))
  }

  /** `SearchResult(title=result.get("title", ""), ...)`. */
  function ToSearchResult(raw: RawResult): (r: SearchResult)
    ensures r.title == (if raw.title.Some? then raw.title.value else "")
    ensures r.url == (if raw.url.Some? then raw.url.value else "")
    ensures r.content == (if raw.content.Some? then raw.content.value else "")
  {
    SearchResult(raw.title.GetOr(""), raw.url.GetOr(""), raw.content.GetOr(""))
  }

  /** `data.get("results", [])`. */
  function RawResults(data: SearchData): (rs: seq<RawResult>)
    ensures data.results.None? ==> rs == []
    ensures data.results.Some? ==> rs == data.results.value
  {
    data.results.GetOr([])
  }

  /** The append loop: one record per raw element, in input order. */
  method CollectResults(raw: seq<RawResult>) returns (results: seq<SearchResult>)
    ensures |results| == |raw|
    ensures forall i :: 0 <= i < |raw| ==> results[i] == ToSearchResult(raw[i])
  {
    results := [];
    var i := 0;
    while i < |raw|
      invariant 0 <= i <= |raw|
      invariant |results| == i
      invariant forall k :: 0 <= k < i ==> results[k] == ToSearchResult(raw[k])
    {
      results := results + [ToSearchResult(raw[i])];
      i := i + 1;
    }
  }

  /** The body of the `try` shared by both tools: send the request, map the
      results, and re-raise any failure with `prefix`. `post` stands for the
      HTTP exchange, status check and JSON decoding. */
  method RunSearch(request: Request, prefix: string, post: Request -> Result<SearchData>)
    returns (r: Result<SearchResponse>)
    ensures post(request).Failure? ==> r == Failure(prefix + post(request).error)
    ensures post(request).Success? ==> r.Success?
    ensures post(request).Success? ==>
              var raw := RawResults(post(request).value);
              && |r.value.results| == |raw|
              && forall i :: 0 <= i < |raw| ==> r.value.results[i] == ToSearchResult(raw[i])
  {
    var inner: Result<SearchResponse>;
    match post(request) {
      case Failure(e) =>
        inner := Failure(e);
      case Success(data) =>
        var results := CollectResults(RawResults(data));
        inner := Success(SearchResponse(results));
    }
    r := WithPrefix(prefix, inner);
  }

  /** The `search_web` tool; `maxResults` defaults to 10. */
  method SearchWeb(flag: ShutdownFlag, apiKey: string, query: string,
                   post: Request -> Result<SearchData>, maxResults: int := DefaultMaxResults)
    returns (r: Result<SearchResponse>)
    // The gate is checked before any request is built or sent.
    ensures flag.requested ==> r == Failure(ShuttingDownMessage)
    ensures !flag.requested ==>
              var request := WebRequest(apiKey, query, maxResults);
              match post(request)
              case Failure(e) => r == Failure(WebErrorPrefix + e)
              case Success(data) =>
                && r.Success?
                && |r.value.results| == |RawResults(data)|
                && forall i :: 0 <= i < |RawResults(data)| ==>
                     r.value.results[i] == ToSearchResult(RawResults(data)[i])
  {
    if flag.requested {
      return Failure(ShuttingDownMessage);
    }
    r := RunSearch(WebRequest(apiKey, query, maxResults), WebErrorPrefix, post);
  }

  /** The `search_news` tool; `maxResults` defaults to 10. */
  method SearchNews(flag: ShutdownFlag, apiKey: string, query: string,
                    post: Request -> Result<SearchData>, maxResults: int := DefaultMaxResults)
    returns (r: Result<SearchResponse>)
    ensures flag.requested ==> r == Failure(ShuttingDownMessage)
    ensures !flag.requested ==>
              var request := NewsRequest(apiKey, query, maxResults);
              match post(request)
              case Failure(e) => r == Failure(NewsErrorPrefix + e)
              case Success(data) =>
                && r.Success?
                && |r.value.results| == |RawResults(data)|
                && forall i :: 0 <= i < |RawResults(data)| ==>
                     r.value.results[i] == ToSearchResult(RawResults(data)[i])
  {
    if flag.requested {
      return Failure(ShuttingDownMessage);
    }
    r := RunSearch(NewsRequest(apiKey, query, maxResults), NewsErrorPrefix, post);
  }

  /** A response without a `results` key gives an empty result list. */
  method SearchWithoutResultsKey(flag: ShutdownFlag, apiKey: string, query: string)
    returns (r: Result<SearchResponse>)
    requires !flag.requested
    ensures r == Success(SearchResponse([]))
  {
    r := SearchWeb(flag, apiKey, query, (req: Request) => Success(SearchData(None)));
    assert |r.value.results| == 0;
  }
}
