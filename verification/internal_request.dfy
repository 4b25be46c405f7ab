/** The internal request helpers of src/server-lib/internal-request.ts. The
    network call itself is not modelled: each function returns the request it
    would hand to `fetch`, and the application's public base URL and the
    environment's secrets are parameters. */
module InternalRequest {
  import opened Wrappers

  datatype Header = Header(name: string, value: string)

  /** What is handed to `fetch`: method, URL and headers */
  datatype Request = Request(httpMethod: string, url: string, headers: seq<Header>)

  const PathError: string := "Path must not start with / or http"
  const InternalPrefix: string := "/api/internal/"

  predicate StartsWith(s: string, prefix: string) {
    |prefix| <= |s| && s[..|prefix|] == prefix
  }

  /** `internalPOST`: a path starting with "/" or "http" is refused with an
      error before anything is sent; any other path is POSTed, as JSON and with
      the shared secret, to the internal API under the application's base URL */
  function InternalPost(baseUrl: string, sharedSecret: string, path: string): (r: Result<Request, string>)
    ensures r.Failure? <==>
      || (|path| >= 1 && path[0] == '/')
      || (|path| >= 4 && path[0] == 'h' && path[1] == 't' && path[2] == 't' && path[3] == 'p')
    ensures r.Failure? ==> r.error == PathError
    ensures r.Success? ==>
      && r.value.httpMethod == "POST"
      && |r.value.url| == |baseUrl| + |InternalPrefix| + |path|
      && r.value.url[..|baseUrl|] == baseUrl
      && r.value.url[|baseUrl|..|baseUrl| + |InternalPrefix|] == InternalPrefix
      && r.value.url[|baseUrl| + |InternalPrefix|..] == path
      && Header("Content-Type", "application/json") in r.value.headers
      && Header("X-Scout-Secret", sharedSecret) in r.value.headers
  {
    if StartsWith(path, "/") || StartsWith(path, "http") then
      Failure(PathError)
    else
      Success(PostRequest(baseUrl, sharedSecret, path))
  }

  /** The request an accepted path is sent as */
  function PostRequest(baseUrl: string, sharedSecret: string, path: string): Request {
    Request("POST", baseUrl + InternalPrefix + path,
      [Header("Content-Type", "application/json"), Header("X-Scout-Secret", sharedSecret)])
  }

  /** Two accepted paths give the same request only if they are the same path */
  lemma InternalPostInjective(baseUrl: string, sharedSecret: string, p1: string, p2: string)
    requires InternalPost(baseUrl, sharedSecret, p1).Success?
    requires InternalPost(baseUrl, sharedSecret, p2).Success?
    requires InternalPost(baseUrl, sharedSecret, p1) == InternalPost(baseUrl, sharedSecret, p2)
    ensures p1 == p2
  {
    var u := InternalPost(baseUrl, sharedSecret, p1).value.url;
    assert p1 == u[|baseUrl| + |InternalPrefix|..] == p2;
  }

  /** A path that begins with a letter other than 'h' always passes the guard */
  lemma PlainPathAccepted(baseUrl: string, sharedSecret: string, path: string)
    requires |path| >= 1 && path[0] != '/' && path[0] != 'h'
    ensures InternalPost(baseUrl, sharedSecret, path).Success?
  {
  }

  /** A setting counts as configured when it is present and not the empty string */
  predicate Configured(setting: Option<string>) {
    setting.Some? && setting.value != ""
  }

  /** `isAnthropicDownPOST`: with the reporting URL or its secret missing or
      empty nothing is sent; otherwise one POST goes to the report-issue endpoint
      carrying the API secret. A failed fetch is caught and logged, so the
      operation has no error outcome: its only effect is the request it sends */
  function IsAnthropicDownPost(downUrl: Option<string>, apiSecret: Option<string>): (sent: Option<Request>)
    ensures sent.None? <==> !Configured(downUrl) || !Configured(apiSecret)
    ensures sent.Some? ==>
      && sent.value.httpMethod == "POST"
      && sent.value.url == downUrl.value + "/api/internal/report-issue"
      && Header("X-API-SECRET", apiSecret.value) in sent.value.headers
  {
    if !Configured(downUrl) || !Configured(apiSecret) then None
    else Some(Request("POST", downUrl.value + "/api/internal/report-issue",
      [Header("Content-Type", "application/json"), Header("X-API-SECRET", apiSecret.value)]))
  }
}
