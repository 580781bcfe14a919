/**
 * query_api: one GET to the SharedCount `/url` endpoint, guarded by a
 * non-empty URL and API key. The HTTP client is outside the model: its
 * answer is an input.
 */
module SharedCountApi {
  import opened Php

  /** The domain used when no override is configured. */
  const DefaultDomain: string := "http://free.sharedcount.com"

  /** What the HTTP client answers to one request: a status code and a body. */
  datatype Response = Response(code: int, body: string)

  /** The request: endpoint and query-string parameters, in order. */
  datatype Query = Query(endpoint: string, params: seq<(string, string)>)

  /** What query_api returns: nothing (no request sent), `false`, or the body. */
  datatype ApiResult = NotSent | Failed | Body(text: string)

  /** A request is sent only when both the URL and the API key are truthy (`! $url`, `empty($this->api_key)`). */
  predicate Sends(url: string, apiKey: string)
  {
    TruthyString(url) && TruthyString(apiKey)
  }

  /** The request query_api issues for `url`: `{domain}/url?url=…&apikey=…`. */
  function ApiQuery(domain: string, url: string, apiKey: string): Query
  {
    Query(domain + "/url", [("url", url), ("apikey", apiKey)])
  }

  /**
   * The result of query_api when the HTTP client answers each request `q`
   * with `http(q)`: the request sent is `ApiQuery(domain, url, apiKey)`.
   */
  function QueryApi(domain: string, url: string, apiKey: string, http: Query -> Response): (r: ApiResult)
    ensures r.NotSent? <==> !Sends(url, apiKey)
    ensures Sends(url, apiKey) ==> (r.Body? <==> http(ApiQuery(domain, url, apiKey)).code == 200)
    ensures r.Body? ==> r.text == http(ApiQuery(domain, url, apiKey)).body
  {
    if !TruthyString(url) || !TruthyString(apiKey) then NotSent
    else
      var results := http(ApiQuery(domain, url, apiKey));
      if results.code == 200 then Body(results.body) else Failed
  }

  /**
   * query_api sends exactly one request, `ApiQuery(domain, url, apiKey)`, or none:
   * two HTTP clients that answer that request alike give the same result, and
   * without a request the client is never consulted.
   */
  lemma QueryApiSendsApiQuery(domain: string, url: string, apiKey: string, h1: Query -> Response, h2: Query -> Response)
    requires !Sends(url, apiKey) || h1(ApiQuery(domain, url, apiKey)) == h2(ApiQuery(domain, url, apiKey))
    ensures QueryApi(domain, url, apiKey, h1) == QueryApi(domain, url, apiKey, h2)
  {
  }
}
