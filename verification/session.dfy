/** The networking engine: builds a concrete HTTP request from a request
    descriptor, hands it to the transport, and classifies what comes back
    into exactly one result for the caller's completion handler.

    Everything the engine borrows from the platform (URL composition, the
    transport, JSON decoding, the `Link` header parser) is a parameter. */
module Session {
  import opened Results
  import opened Entities
  import Requests

  newtype byte = x: int | 0 <= x < 256

  type Body = seq<byte>

  /** The server's structured error body (`documentation_url`, `message`). */
  datatype Message = Message(documentationURL: Url, message: string)

  /** An `HTTPURLResponse`: its status code and header fields. */
  datatype HttpResponse = HttpResponse(statusCode: int, allHeaderFields: map<string, string>)

  /** What the transport may hand back as the response object: an HTTP
      response or some other kind of `URLResponse`. */
  datatype UrlResponse = Http(http: HttpResponse) | NotHttp

  /** `URLQueryItem`. */
  datatype QueryItem = QueryItem(name: string, value: Option<string>)

  /** `URLComponents`: the decomposed URL and the query items set on it. */
  datatype Components = Components(url: Url, queryItems: Option<seq<QueryItem>>)

  /** The engine's own error kinds. */
  datatype SessionError =
    | NoData(response: HttpResponse)
    | NoResponse
    | UnacceptableStatusCode(statusCode: int, message: Option<Message>)
    | FailedToCreateComponents(url: Url)
    | FailedToCreateURL(components: Components)

  /** A failure reported by the transport before any response exists. */
  datatype TransportError = TransportError(description: string)

  /** A failure of the JSON decoder. */
  datatype DecodingError = DecodingError(description: string)

  /** Every error the completion handler can receive. */
  datatype Error =
    | SessionFailure(sessionError: SessionError)
    | TransportFailure(transportError: TransportError)
    | DecodingFailure(decodingError: DecodingError)

  /** Relation links of a paginated response; `None` means no such page. */
  datatype Pagination = Pagination(next: Option<Url>, last: Option<Url>, first: Option<Url>, prev: Option<Url>)

  const NoPagination: Pagination := Pagination(None, None, None, None)

  datatype AccessToken = AccessToken(accessToken: string)

  /** What the session's two providers yield when a request is sent. */
  datatype Configuration = Configuration(
    accessToken: Option<AccessToken>,
    additionalHeaderFields: Option<map<string, string>>)

  /** `URLRequest`: target URL, method string and header fields. */
  datatype UrlRequest = UrlRequest(url: Url, httpMethod: string, allHTTPHeaderFields: map<string, string>)

  /** The returned `URLSessionTask`, seen through what it carries: the request it sends
      and the components its URL was composed from. */
  datatype DataTask = DataTask(components: Components, request: UrlRequest)

  /** The three arguments of the transport's completion callback. */
  datatype Exchange = Exchange(data: Option<Body>, response: Option<UrlResponse>, error: Option<TransportError>)

  /** The Foundation calls the engine relies on: `appendingPathComponent`,
      whether `URLComponents(url:resolvingAgainstBaseURL:)` succeeds, and
      `URLComponents.url`. */
  datatype Foundation = Foundation(
    appendingPathComponent: (Url, string) -> Url,
    decomposes: Url -> bool,
    composedUrl: Components -> Option<Url>)

  /** The decoders: the request's response shape, the structured error body
      (as `try?`), and the `Link` header parser. */
  datatype Decoders<T> = Decoders(
    response: Body -> Result<T, DecodingError>,
    message: Body -> Option<Message>,
    pagination: string -> Pagination)

  type Completion<T> = Result<(T, Pagination), Error>

  // ---------------------------------------------------------------------
  // Request building

  function Names(items: seq<QueryItem>): set<string> {
    set i | 0 <= i < |items| :: items[i].name
  }

  ghost predicate ItemsFrom(items: seq<QueryItem>, params: map<string, string>) {
    forall i :: 0 <= i < |items| ==> items[i].name in params && items[i].value == Some(params[items[i].name])
  }

  ghost predicate Distinct(items: seq<QueryItem>) {
    forall i, j :: 0 <= i < j < |items| ==> items[i].name != items[j].name
  }

  /** `items` holds one query item per parameter, with the parameter's name
      and value, and nothing else. */
  ghost predicate QueryItemsFor(items: seq<QueryItem>, params: map<string, string>) {
    && |items| == |params|
    && Names(items) == params.Keys
    && ItemsFrom(items, params)
    && Distinct(items)
  }

  /** `queryParameters.compactMap(URLQueryItem.init)`. A dictionary's
      iteration order is unspecified, so the order of the items is left
      open; the values are never absent, so nothing is dropped. */
  method QueryItems(params: map<string, string>) returns (items: seq<QueryItem>)
    ensures QueryItemsFor(items, params)
  {
    items := [];
    var rest := params.Keys;
    while rest != {}
      invariant rest !! Names(items)
      invariant rest + Names(items) == params.Keys
      invariant |items| + |rest| == |params.Keys|
      invariant ItemsFrom(items, params)
      invariant Distinct(items)
      decreases |rest|
    {
      var k :| k in rest;
      var item := QueryItem(k, Some(params[k]));
      NamesSnoc(items, item);
      SnocKeepsItemsFrom(items, item, params);
      SnocKeepsDistinct(items, item);
      items := items + [item];
      rest := rest - {k};
    }
    assert |params.Keys| == |params|;
  }

  lemma SnocKeepsItemsFrom(items: seq<QueryItem>, item: QueryItem, params: map<string, string>)
    requires ItemsFrom(items, params)
    requires item.name in params && item.value == Some(params[item.name])
    ensures ItemsFrom(items + [item], params)
  {
  }

  lemma SnocKeepsDistinct(items: seq<QueryItem>, item: QueryItem)
    requires Distinct(items)
    requires item.name !in Names(items)
    ensures Distinct(items + [item])
  {
    var extended := items + [item];
    forall i, j | 0 <= i < j < |extended| ensures extended[i].name != extended[j].name {
      assert extended[i] == items[i];
      if j == |items| {
        assert items[i].name in Names(items);
      } else {
        assert extended[j] == items[j];
      }
    }
  }

  lemma NamesSnoc(items: seq<QueryItem>, item: QueryItem)
    ensures Names(items + [item]) == Names(items) + {item.name}
  {
    var extended := items + [item];
    assert extended[|items|] == item;
    forall n | n in Names(extended) ensures n in Names(items) + {item.name} {
      var i :| 0 <= i < |extended| && extended[i].name == n;
      if i < |items| { assert items[i] == extended[i]; }
    }
    forall n | n in Names(items) ensures n in Names(extended) {
      var i :| 0 <= i < |items| && items[i].name == n;
      assert extended[i] == items[i];
    }
  }

  /** The value a header map gives `k`, or the empty string. */
  function ValueOr(m: map<string, string>, k: string): string {
    if k in m then m[k] else ""
  }

  /** `base.merging(other, uniquingKeysWith: +)`: every key of either map,
      and on a key both have, the two values concatenated, `base`'s first. */
  function MergeConcat(base: map<string, string>, other: map<string, string>): (r: map<string, string>)
    ensures r.Keys == base.Keys + other.Keys
    ensures forall k :: k in r ==> r[k] == ValueOr(base, k) + ValueOr(other, k)
  {
    map k | k in base.Keys + other.Keys ::
      if k in base && k in other then base[k] + other[k]
      else if k in base then base[k]
      else other[k]
  }

  /** The header a present access token contributes. */
  function AuthorizationHeader(token: Option<AccessToken>): (h: map<string, string>)
    ensures token.None? ==> h == map[]
    ensures token.Some? ==> h.Keys == {"Authorization"} && h["Authorization"] == "token " + token.value.accessToken
  {
    match token
    case None => map[]
    case Some(t) => map["Authorization" := "token " + t.accessToken]
  }

  /** The descriptor's headers, merged with the additional ones when the
      provider yields some. */
  function MergedHeaders(descriptorHeaders: map<string, string>, additional: Option<map<string, string>>): (r: map<string, string>)
    ensures var extra := match additional case Some(h) => h case None => map[];
            && r.Keys == descriptorHeaders.Keys + extra.Keys
            && forall k :: k in r ==> r[k] == ValueOr(descriptorHeaders, k) + ValueOr(extra, k)
  {
    match additional
    case Some(extra) => MergeConcat(descriptorHeaders, extra)
    case None => MergeConcatEmpty(descriptorHeaders); descriptorHeaders
  }

  /** The merged headers, merged with the `Authorization` header when the
      provider yields a token. */
  function WithAuthorization(merged: map<string, string>, token: Option<AccessToken>): (r: map<string, string>)
    ensures r.Keys == merged.Keys + AuthorizationHeader(token).Keys
    ensures forall k :: k in r ==> r[k] == ValueOr(merged, k) + ValueOr(AuthorizationHeader(token), k)
  {
    match token
    case Some(t) => MergeConcat(merged, map["Authorization" := "token " + t.accessToken])
    case None => MergeConcatEmpty(merged); merged
  }

  /** The header fields of the built request. */
  function HeaderFields(descriptorHeaders: map<string, string>, config: Configuration): (r: map<string, string>)
    ensures var extra := match config.additionalHeaderFields case Some(h) => h case None => map[];
            var auth := AuthorizationHeader(config.accessToken);
            && r.Keys == descriptorHeaders.Keys + extra.Keys + auth.Keys
            && forall k :: k in r ==> r[k] == ValueOr(descriptorHeaders, k) + ValueOr(extra, k) + ValueOr(auth, k)
  {
    var merged := MergedHeaders(descriptorHeaders, config.additionalHeaderFields);
    var extra := match config.additionalHeaderFields case Some(h) => h case None => map[];
    assert forall k :: ValueOr(merged, k) == ValueOr(descriptorHeaders, k) + ValueOr(extra, k) by {
      forall k ensures ValueOr(merged, k) == ValueOr(descriptorHeaders, k) + ValueOr(extra, k) {
        if config.additionalHeaderFields.Some? { ValueOrMerge(descriptorHeaders, extra, k); }
      }
    }
    WithAuthorization(merged, config.accessToken)
  }

  /** `c` holds the URL composed from the descriptor's base URL and path, and
      the query items built from its query parameters. */
  ghost predicate ComposedFrom(d: Requests.Descriptor, fx: Foundation, c: Components) {
    && c.url == fx.appendingPathComponent(d.baseURL, d.path)
    && fx.decomposes(c.url)
    && (c.queryItems.None? <==> d.queryParameters.None?)
    && (d.queryParameters.Some? ==> QueryItemsFor(c.queryItems.value, d.queryParameters.value))
  }

  /** The built request is the one the descriptor and the configuration
      call for. */
  ghost predicate WellBuilt(d: Requests.Descriptor, config: Configuration, fx: Foundation, t: DataTask) {
    && ComposedFrom(d, fx, t.components)
    && fx.composedUrl(t.components) == Some(t.request.url)
    && t.request.httpMethod == d.httpMethod.RawValue()
    && t.request.allHTTPHeaderFields == HeaderFields(d.headerFields, config)
  }

  /** The synchronous front half of `send`: compose the URL, set the query
      items, the method and the header fields. */
  method BuildRequest(d: Requests.Descriptor, config: Configuration, fx: Foundation)
    returns (r: Result<DataTask, SessionError>)
    ensures var url := fx.appendingPathComponent(d.baseURL, d.path);
            !fx.decomposes(url) <==> r == Failure(FailedToCreateComponents(url))
    ensures r.Failure? ==> r.error.FailedToCreateComponents? || r.error.FailedToCreateURL?
    ensures r.Failure? && r.error.FailedToCreateComponents? ==>
              && r.error.url == fx.appendingPathComponent(d.baseURL, d.path)
              && !fx.decomposes(r.error.url)
    ensures r.Failure? && r.error.FailedToCreateURL? ==>
              && ComposedFrom(d, fx, r.error.components)
              && fx.composedUrl(r.error.components).None?
    ensures r.Success? ==> WellBuilt(d, config, fx, r.value)
  {
    var url := fx.appendingPathComponent(d.baseURL, d.path);
    if !fx.decomposes(url) {
      return Failure(FailedToCreateComponents(url));
    }
    var queryItems: Option<seq<QueryItem>> := None;
    if d.queryParameters.Some? {
      var items := QueryItems(d.queryParameters.value);
      queryItems := Some(items);
    }
    var components := Components(url, queryItems);
    var finalUrl := fx.composedUrl(components);
    if finalUrl.None? {
      return Failure(FailedToCreateURL(components));
    }
    var request := UrlRequest(finalUrl.value, d.httpMethod.RawValue(), HeaderFields(d.headerFields, config));
    r := Success(DataTask(components, request));
  }

  /** Merging in nothing changes nothing. */
  lemma MergeConcatEmpty(h: map<string, string>)
    ensures MergeConcat(h, map[]) == h && MergeConcat(map[], h) == h
  {
    assert MergeConcat(h, map[]).Keys == h.Keys;
    assert MergeConcat(map[], h).Keys == h.Keys;
  }

  /** Without a collision the concatenating merge is plain map union. */
  lemma MergeConcatDisjoint(a: map<string, string>, b: map<string, string>)
    requires a.Keys !! b.Keys
    ensures MergeConcat(a, b) == a + b
  {
    assert MergeConcat(a, b).Keys == (a + b).Keys;
  }

  /** Merging three header maps does not depend on how the merges nest. */
  lemma MergeConcatAssociative(a: map<string, string>, b: map<string, string>, c: map<string, string>)
    ensures MergeConcat(MergeConcat(a, b), c) == MergeConcat(a, MergeConcat(b, c))
  {
    var left, right := MergeConcat(MergeConcat(a, b), c), MergeConcat(a, MergeConcat(b, c));
    assert left.Keys == right.Keys;
    forall k | k in left ensures left[k] == right[k] {
      MergeConcatAssociativeAt(a, b, c, k);
    }
  }

  lemma MergeConcatAssociativeAt(a: map<string, string>, b: map<string, string>, c: map<string, string>, k: string)
    ensures ValueOr(MergeConcat(MergeConcat(a, b), c), k) == ValueOr(MergeConcat(a, MergeConcat(b, c)), k)
  {
    var ab, bc := MergeConcat(a, b), MergeConcat(b, c);
    ValueOrMerge(ab, c, k);
    ValueOrMerge(a, b, k);
    ValueOrMerge(b, c, k);
    ValueOrMerge(a, bc, k);
    ConcatAssociative(ValueOr(a, k), ValueOr(b, k), ValueOr(c, k),
      ValueOr(ab, k), ValueOr(bc, k), ValueOr(MergeConcat(ab, c), k), ValueOr(MergeConcat(a, bc), k));
  }

  lemma ValueOrMerge(a: map<string, string>, b: map<string, string>, k: string)
    ensures ValueOr(MergeConcat(a, b), k) == ValueOr(a, k) + ValueOr(b, k)
  {
  }

  // A solver aid for MergeConcatAssociativeAt: naming the intermediate
  // strings keeps the map terms out of the sequence reasoning.
  lemma ConcatAssociative(x: string, y: string, z: string, xy: string, yz: string, left: string, right: string)
    requires xy == x + y && yz == y + z && left == xy + z && right == x + yz
    ensures left == right
  {
  }

  /** Where the concatenating merge and a "later value wins" override part
      ways: on exactly the keys both maps hold with a non-empty first value. */
  lemma MergeConcatVersusOverride(a: map<string, string>, b: map<string, string>, k: string)
    requires k in a || k in b
    ensures MergeConcat(a, b)[k] == (a + b)[k] <==> k !in a || k !in b || a[k] == ""
  {
    if k in a && k in b && MergeConcat(a, b)[k] == (a + b)[k] {
      assert |a[k] + b[k]| == |b[k]|;
    }
  }

  /** With no additional headers and no token the descriptor's headers are
      sent as they are. */
  lemma HeaderFieldsPlain(h: map<string, string>)
    ensures HeaderFields(h, Configuration(None, None)) == h
    ensures HeaderFields(h, Configuration(None, Some(map[]))) == h
  {
    MergeConcatEmpty(h);
  }

  /** A token adds the `Authorization` header and touches no other key; its
      value is appended to any `Authorization` value already merged in. */
  lemma HeaderFieldsWithToken(merged: map<string, string>, token: AccessToken)
    ensures var with := WithAuthorization(merged, Some(token));
            && with.Keys == merged.Keys + {"Authorization"}
            && with["Authorization"] == ValueOr(merged, "Authorization") + "token " + token.accessToken
            && forall k :: k in merged && k != "Authorization" ==> with[k] == merged[k]
  {
  }

  /** A header set both by the descriptor and by the session keeps both
      values, the descriptor's first: `X-Foo: a` and `X-Foo: b` give `ab`. */
  lemma CollidingHeadersConcatenate()
    ensures HeaderFields(map["X-Foo" := "a"], Configuration(Some(AccessToken("t")), Some(map["X-Foo" := "b"])))
            == map["X-Foo" := "ab", "Authorization" := "token t"]
  {
    var r := HeaderFields(map["X-Foo" := "a"], Configuration(Some(AccessToken("t")), Some(map["X-Foo" := "b"])));
    var expected := map["X-Foo" := "ab", "Authorization" := "token t"];
    assert r.Keys == expected.Keys;
    assert r["X-Foo"] == "a" + "b" + "" == "ab";
    assert r["Authorization"] == "" + "" + "token t" == "token t";
  }

  // ---------------------------------------------------------------------
  // Response classification

  /** The 2xx (Successful) class of section 15.3 of RFC 9110, `200..<300`. */
  predicate Acceptable(statusCode: int) {
    200 <= statusCode < 300
  }

  /** The pagination of a successful response: parsed from its `Link`
      header when there is one, all relations absent otherwise. */
  function LinkPagination(response: HttpResponse, parse: string -> Pagination): (p: Pagination)
    ensures "Link" !in response.allHeaderFields ==> p.next.None? && p.last.None? && p.first.None? && p.prev.None?
    ensures "Link" in response.allHeaderFields ==> p == parse(response.allHeaderFields["Link"])
  {
    if "Link" in response.allHeaderFields then parse(response.allHeaderFields["Link"]) else NoPagination
  }

  /** The exchange reached the server and came back as an HTTP response. */
  predicate Answered(x: Exchange) {
    x.error.None? && x.response.Some? && x.response.value.Http?
  }

  /** The decision ladder of the transport callback: transport error, then
      a missing or non-HTTP response, then a missing body, then the status
      gate, and only then the decoded response. */
  function Classify<T>(x: Exchange, dec: Decoders<T>): (r: Completion<T>)
    ensures x.error.Some? ==> r == Failure(TransportFailure(x.error.value))
    ensures r.Failure? && r.error.TransportFailure? <==> x.error.Some?
    ensures r == Failure(SessionFailure(NoResponse)) <==> x.error.None? && !Answered(x)
    ensures r.Failure? && r.error.SessionFailure? && r.error.sessionError.NoData? <==> Answered(x) && x.data.None?
    ensures r.Failure? && r.error.SessionFailure? && r.error.sessionError.NoData? ==> r.error.sessionError.response == x.response.value.http
    ensures r.Failure? && r.error.SessionFailure? && r.error.sessionError.UnacceptableStatusCode? <==>
              Answered(x) && x.data.Some? && !Acceptable(x.response.value.http.statusCode)
    ensures r.Failure? && r.error.SessionFailure? && r.error.sessionError.UnacceptableStatusCode? ==>
              && r.error.sessionError.statusCode == x.response.value.http.statusCode
              && r.error.sessionError.message == dec.message(x.data.value)
    ensures r.Failure? && r.error.SessionFailure? ==> !r.error.sessionError.FailedToCreateComponents? && !r.error.sessionError.FailedToCreateURL?
    ensures r.Failure? && r.error.DecodingFailure? <==>
              Answered(x) && x.data.Some? && Acceptable(x.response.value.http.statusCode) && dec.response(x.data.value).Failure?
    ensures r.Failure? && r.error.DecodingFailure? ==> r.error.decodingError == dec.response(x.data.value).error
    ensures r.Success? <==>
              Answered(x) && x.data.Some? && Acceptable(x.response.value.http.statusCode) && dec.response(x.data.value).Success?
    ensures r.Success? ==>
              && r.value.0 == dec.response(x.data.value).value
              && r.value.1 == LinkPagination(x.response.value.http, dec.pagination)
  {
    if x.error.Some? then Failure(TransportFailure(x.error.value))
    else if x.response.None? || x.response.value.NotHttp? then Failure(SessionFailure(NoResponse))
    else
      var response := x.response.value.http;
      if x.data.None? then Failure(SessionFailure(NoData(response)))
      else if !Acceptable(response.statusCode) then
        Failure(SessionFailure(UnacceptableStatusCode(response.statusCode, dec.message(x.data.value))))
      else
        var pagination := LinkPagination(response, dec.pagination);
        match dec.response(x.data.value)
        case Success(value) => Success((value, pagination))
        case Failure(e) => Failure(DecodingFailure(e))
  }

  /** On a rejected status the response decoder is never consulted: any two
      response decoders give the same outcome. */
  lemma RejectedStatusIgnoresResponseDecoder<T>(
    x: Exchange, response1: Body -> Result<T, DecodingError>, response2: Body -> Result<T, DecodingError>,
    message: Body -> Option<Message>, pagination: string -> Pagination)
    requires Answered(x) && x.data.Some? && !Acceptable(x.response.value.http.statusCode)
    ensures Classify(x, Decoders(response1, message, pagination)) == Classify(x, Decoders(response2, message, pagination))
  {
  }

  /** On an accepted status the structured error body is never consulted. */
  lemma AcceptedStatusIgnoresMessageDecoder<T>(
    x: Exchange, response: Body -> Result<T, DecodingError>,
    message1: Body -> Option<Message>, message2: Body -> Option<Message>, pagination: string -> Pagination)
    requires Answered(x) && x.data.Some? && Acceptable(x.response.value.http.statusCode)
    ensures Classify(x, Decoders(response, message1, pagination)) == Classify(x, Decoders(response, message2, pagination))
  {
  }

  /** A transport error decides the outcome whatever else the callback
      received. */
  lemma TransportErrorFirst<T>(x: Exchange, y: Exchange, dec: Decoders<T>)
    requires x.error.Some? && y.error == x.error
    ensures Classify(x, dec) == Classify(y, dec)
  {
  }

  /** Only a missing body is `noData`: an empty body on a 2xx status (a 204,
      say) goes to the response decoder. */
  lemma EmptyBodyIsDecoded<T>(response: HttpResponse, dec: Decoders<T>)
    requires Acceptable(response.statusCode)
    ensures var r := Classify(Exchange(Some([]), Some(Http(response)), None), dec);
            && !(r.Failure? && r.error == SessionFailure(NoData(response)))
            && (r.Success? <==> dec.response([]).Success?)
  {
  }

  /** `send`: build the request, or report why it could not be built; then
      dispatch it and deliver the classified outcome. Whatever happens, the
      completion handler is called exactly once. */
  method Send<T>(d: Requests.Descriptor, config: Configuration, fx: Foundation,
                 exchange: UrlRequest -> Exchange, dec: Decoders<T>)
    returns (dataTask: Option<DataTask>, completions: seq<Completion<T>>)
    ensures |completions| == 1
    ensures dataTask.Some? ==> WellBuilt(d, config, fx, dataTask.value)
    ensures dataTask.Some? ==> completions[0] == Classify(exchange(dataTask.value.request), dec)
    ensures dataTask.None? <==>
              completions[0].Failure? && completions[0].error.SessionFailure?
              && (completions[0].error.sessionError.FailedToCreateComponents?
                  || completions[0].error.sessionError.FailedToCreateURL?)
    ensures !fx.decomposes(fx.appendingPathComponent(d.baseURL, d.path)) ==>
              completions == [Failure(SessionFailure(FailedToCreateComponents(fx.appendingPathComponent(d.baseURL, d.path))))]
    ensures dataTask.None? && completions[0].error.sessionError.FailedToCreateComponents? ==>
              && completions[0].error.sessionError.url == fx.appendingPathComponent(d.baseURL, d.path)
              && !fx.decomposes(fx.appendingPathComponent(d.baseURL, d.path))
    ensures dataTask.None? && completions[0].error.sessionError.FailedToCreateURL? ==>
              && ComposedFrom(d, fx, completions[0].error.sessionError.components)
              && fx.composedUrl(completions[0].error.sessionError.components).None?
  {
    var built := BuildRequest(d, config, fx);
    match built
    case Failure(e) =>
      completions := [Failure(SessionFailure(e))];
      dataTask := None;
    case Success(t) =>
      completions := [Classify(exchange(t.request), dec)];
      dataTask := Some(t);
  }
}
