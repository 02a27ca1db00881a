/** The `Request` protocol: a declarative description of one API call, with
    the defaults its protocol extension supplies. */
module Requests {
  import opened Results
  import opened Entities

  /** `HttpMethod`, a string-backed enumeration. */
  datatype HttpMethod = Get | Post {
    function RawValue(): string {
      match this
      case Get => "GET"
      case Post => "POST"
    }
  }

  /** `HttpMethod(rawValue:)`: the inverse of `RawValue`. */
  function HttpMethodFromRaw(s: string): (r: Option<HttpMethod>)
    ensures forall m: HttpMethod :: r == Some(m) <==> m.RawValue() == s
  {
    if s == "GET" then Some(Get) else if s == "POST" then Some(Post) else None
  }

  /** The API authority every request targets unless it says otherwise. */
  const DefaultBaseURL: Url := "https://api.github.com"

  /** The headers every request sends unless it says otherwise. */
  const DefaultHeaderFields: map<string, string> := map["Accept" := "application/json"]

  /** The properties a request exposes to the session. `queryParameters` is
      `None` when there is no query string at all. */
  datatype Descriptor = Descriptor(
    baseURL: Url,
    httpMethod: HttpMethod,
    path: string,
    headerFields: map<string, string>,
    queryParameters: Option<map<string, string>>)

  /** What a conforming type declares itself. `httpMethod` (Swift's `method`) and `path` have no
      default; for the other three `None` means the type does not implement
      the property and inherits the protocol extension's default. */
  datatype Conformance = Conformance(
    httpMethod: HttpMethod,
    path: string,
    baseURL: Option<Url>,
    headerFields: Option<map<string, string>>,
    queryParameters: Option<Option<map<string, string>>>)

  /** The properties a conforming type actually exposes: its own
      implementations where it has them, the extension's otherwise. */
  function Resolve(c: Conformance): (d: Descriptor)
    ensures d.httpMethod == c.httpMethod && d.path == c.path
    ensures c.baseURL.None? ==> d.baseURL == "https://api.github.com"
    ensures c.baseURL.Some? ==> d.baseURL == c.baseURL.value
    ensures c.headerFields.None? ==> d.headerFields.Keys == {"Accept"} && d.headerFields["Accept"] == "application/json"
    ensures c.headerFields.Some? ==> d.headerFields == c.headerFields.value
    ensures c.queryParameters.None? ==> d.queryParameters.None?
    ensures c.queryParameters.Some? ==> d.queryParameters == c.queryParameters.value
  {
    Descriptor(
      baseURL := match c.baseURL case Some(u) => u case None => DefaultBaseURL,
      httpMethod := c.httpMethod,
      path := c.path,
      headerFields := match c.headerFields case Some(h) => h case None => DefaultHeaderFields,
      queryParameters := match c.queryParameters case Some(q) => q case None => None)
  }

  /** The two methods are told apart on the wire. */
  lemma RawValuesDistinct()
    ensures Get.RawValue() != Post.RawValue()
    ensures Get.RawValue() == "GET" && Post.RawValue() == "POST"
  {
  }
}
