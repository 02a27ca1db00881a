/** `SearchUsersRequest`: the user-search endpoint as a `Request`. Its
    response shape is `ItemsResponse<User>`. */
module SearchUsers {
  import opened Results
  import Decimal
  import Requests

  datatype Sort = Followers | Repositories | Joined {
    function RawValue(): string {
      match this
      case Followers => "followers"
      case Repositories => "repositories"
      case Joined => "joined"
    }
  }

  datatype Order = Asc | Desc {
    function RawValue(): string {
      match this
      case Asc => "asc"
      case Desc => "desc"
    }
  }

  /** `Sort(rawValue:)`. */
  function SortFromRaw(s: string): (r: Option<Sort>)
    ensures forall x: Sort :: r == Some(x) <==> x.RawValue() == s
  {
    if s == "followers" then Some(Followers)
    else if s == "repositories" then Some(Repositories)
    else if s == "joined" then Some(Joined)
    else None
  }

  /** `Order(rawValue:)`. */
  function OrderFromRaw(s: string): (r: Option<Order>)
    ensures forall x: Order :: r == Some(x) <==> x.RawValue() == s
  {
    if s == "asc" then Some(Asc) else if s == "desc" then Some(Desc) else None
  }

  datatype SearchUsersRequest = SearchUsersRequest(
    query: string,
    sort: Option<Sort>,
    order: Option<Order>,
    page: Option<int>,
    perPage: Option<int>)

  const Path: string := "/search/users"

  /** The keys the request can ever put in its query string. */
  const QueryKeys: set<string> := {"q", "page", "per_page", "sort", "order"}

  /** How many of the optional search fields are present. */
  function PresentFields(r: SearchUsersRequest): nat {
    (if r.page.Some? then 1 else 0) + (if r.perPage.Some? then 1 else 0)
    + (if r.sort.Some? then 1 else 0) + (if r.order.Some? then 1 else 0)
  }

  /** `queryParameters`: the search term under `q`, and each optional field
      under its own key only when the field is present. */
  function QueryParameters(r: SearchUsersRequest): (q: Option<map<string, string>>)
    ensures q.Some?
    ensures "q" in q.value && q.value["q"] == r.query
    ensures "page" in q.value <==> r.page.Some?
    ensures r.page.Some? ==> q.value["page"] == Decimal.Render(r.page.value)
    ensures "per_page" in q.value <==> r.perPage.Some?
    ensures r.perPage.Some? ==> q.value["per_page"] == Decimal.Render(r.perPage.value)
    ensures "sort" in q.value <==> r.sort.Some?
    ensures r.sort.Some? ==> q.value["sort"] in {"followers", "repositories", "joined"}
    ensures r.sort.Some? ==> q.value["sort"] == r.sort.value.RawValue()
    ensures "order" in q.value <==> r.order.Some?
    ensures r.order.Some? ==> q.value["order"] in {"asc", "desc"}
    ensures r.order.Some? ==> q.value["order"] == r.order.value.RawValue()
    ensures q.value.Keys <= QueryKeys
  {
    var p0 := map["q" := r.query];
    var p1 := if r.page.Some? then p0["page" := Decimal.Render(r.page.value)] else p0;
    var p2 := if r.perPage.Some? then p1["per_page" := Decimal.Render(r.perPage.value)] else p1;
    var p3 := if r.sort.Some? then p2["sort" := r.sort.value.RawValue()] else p2;
    var p4 := if r.order.Some? then p3["order" := r.order.value.RawValue()] else p3;
    Some(p4)
  }

  /** The request as the session sees it: GET on `/search/users`, the
      protocol's default base URL and headers, and its own query parameters. */
  function Descriptor(r: SearchUsersRequest): (d: Requests.Descriptor)
    ensures d.httpMethod == Requests.Get && d.httpMethod.RawValue() == "GET"
    ensures d.path == "/search/users"
    ensures d.baseURL == "https://api.github.com"
    ensures d.headerFields == map["Accept" := "application/json"]
    ensures d.queryParameters == QueryParameters(r)
  {
    Requests.Resolve(Requests.Conformance(
      httpMethod := Requests.Get,
      path := Path,
      baseURL := None,
      headerFields := None,
      queryParameters := Some(QueryParameters(r))))
  }

  /** Reads a request back out of its query parameters: the inverse of
      `QueryParameters`. */
  function FromQueryParameters(m: map<string, string>): (r: Option<SearchUsersRequest>)
    ensures r.Some? ==> "q" in m && r.value.query == m["q"]
  {
    if "q" !in m then None
    else
      var page := if "page" in m then Decimal.Parse(m["page"]) else None;
      var perPage := if "per_page" in m then Decimal.Parse(m["per_page"]) else None;
      var sort := if "sort" in m then SortFromRaw(m["sort"]) else None;
      var order := if "order" in m then OrderFromRaw(m["order"]) else None;
      if ("page" in m && page.None?) || ("per_page" in m && perPage.None?)
         || ("sort" in m && sort.None?) || ("order" in m && order.None?)
         || !(m.Keys <= QueryKeys)
      then None
      else Some(SearchUsersRequest(m["q"], sort, order, page, perPage))
  }

  /** Nothing the request says is lost on the way to the query string. */
  lemma QueryParametersRoundTrip(r: SearchUsersRequest)
    ensures FromQueryParameters(QueryParameters(r).value) == Some(r)
  {
    if r.page.Some? { Decimal.RenderRoundTrip(r.page.value); }
    if r.perPage.Some? { Decimal.RenderRoundTrip(r.perPage.value); }
  }

  /** Two requests with the same query string are the same request. */
  lemma QueryParametersInjective(a: SearchUsersRequest, b: SearchUsersRequest)
    requires QueryParameters(a) == QueryParameters(b)
    ensures a == b
  {
    QueryParametersRoundTrip(a);
    QueryParametersRoundTrip(b);
  }

  /** The query string has the search term plus one entry per present
      optional field, and nothing else. */
  lemma QueryParametersSize(r: SearchUsersRequest)
    ensures |QueryParameters(r).value| == 1 + PresentFields(r)
  {
    var p0 := map["q" := r.query];
    var p1 := if r.page.Some? then p0["page" := Decimal.Render(r.page.value)] else p0;
    assert |p1| == 1 + (if r.page.Some? then 1 else 0);
    var p2 := if r.perPage.Some? then p1["per_page" := Decimal.Render(r.perPage.value)] else p1;
    assert "per_page" !in p1;
    assert |p2| == |p1| + (if r.perPage.Some? then 1 else 0);
    var p3 := if r.sort.Some? then p2["sort" := r.sort.value.RawValue()] else p2;
    assert "sort" !in p2;
    assert |p3| == |p2| + (if r.sort.Some? then 1 else 0);
    var p4 := if r.order.Some? then p3["order" := r.order.value.RawValue()] else p3;
    assert "order" !in p3;
    assert |p4| == |p3| + (if r.order.Some? then 1 else 0);
    assert QueryParameters(r).value == p4;
  }

  /** A fully specified search: every field lands under its own key. */
  lemma FullySpecifiedSearch()
    ensures QueryParameters(SearchUsersRequest("tom", Some(Followers), Some(Desc), Some(2), Some(30))).value
            == map["q" := "tom", "sort" := "followers", "order" := "desc", "page" := "2", "per_page" := "30"]
  {
    assert Decimal.Render(2) == "2";
    assert Decimal.NatString(3) == "3";
    assert Decimal.Render(30) == "3" + "0" == "30";
  }
}
