# GitHub search client (MVP sample) in Dafny

A model of the networking core and the search presenter of an iOS sample
app that searches GitHub users:

- `Requests` (requests.dfy): the `Request` protocol as a `Descriptor`
  record, the defaults its protocol extension supplies (`Resolve`), and
  `HttpMethod` with its raw values.
- `SearchUsers` (search_users.dfy): `SearchUsersRequest`, its `Sort` and
  `Order` raw values and the `queryParameters` it assembles, with an inverse
  reading a request back from its query string.
- `Decimal` (decimal.dfy): Swift's `"\(n)"` for the `page` and `per_page`
  values, and the parser that inverts it.
- `Session` (session.dfy): the `Session` engine. `BuildRequest` is the
  synchronous half of `send` (URL composition, query items, method, header
  merge with the `Authorization` header); `Classify` is the decision ladder
  of the transport callback; `Send` puts them together and delivers exactly
  one completion.
- `Presenter` (presenter.dfy): `SearchUserPresenter` as pure state
  transitions, with the view as a log of `ViewEvent`s and the model as a log
  of the queries passed to `fetchUser`.
- `Results`, `Entities` (results.dfy, entities.dfy): `Option`, `Result`,
  `User` and `ItemsResponse`, plain data.

Everything the engine borrows from the platform is a parameter: the
Foundation URL calls (`Foundation`), the transport (a function from the
built `UrlRequest` to the callback's three arguments, `Exchange`), the JSON
decoders and the `Link` header parser (`Decoders`).

Facts about the code worth knowing when reading the model:

- Colliding header keys are concatenated, not overridden: they are merged
  with `uniquingKeysWith: +`, which joins the two strings (the earlier
  level's value first), so a later level never replaces an earlier one. `Session.MergeConcatVersusOverride`
  pins down exactly where this differs from "later value wins", and
  `Session.CollidingHeadersConcatenate` shows `X-Foo: a` plus `X-Foo: b`
  giving `ab`.
- `noData` is raised only when the body is missing (`data == nil`). A
  present but empty body on a 2xx status, a 204 for instance, is handed to
  the response decoder (`Session.EmptyBodyIsDecoded`).
- Query parameter values are non-optional strings, so `compactMap` drops
  nothing: every parameter becomes exactly one query item.
- `SessionError` has no case for transport or decoding failures; those
  reach the completion handler as the underlying Swift `Error`. The model
  gives the handler's error type three cases, `SessionFailure`,
  `TransportFailure` and `DecodingFailure`.

## Model

| member | source | states |
|---|---|---|
| Requests.HttpMethodFromRaw | MVP/MVP/GitHub/API/Request/Request.swift:38-41 | `HttpMethod(rawValue:)` yields a case exactly when that case's raw value is the string, so `GET` and `POST` name one method each |
| Requests.RawValuesDistinct | MVP/MVP/GitHub/API/Request/Request.swift:38-41 | `.get` is `"GET"`, `.post` is `"POST"`, and the two differ |
| Requests.Resolve | MVP/MVP/GitHub/API/Request/Request.swift:11-35 | a request that does not implement a property gets the default: base URL `https://api.github.com`, headers exactly the one entry `Accept: application/json`, no query parameters; one it implements keeps its own |
| Decimal.NatString | MVP/MVP/GitHub/API/Request/SearchUsersRequest.swift:18-23 | the rendering of a non-negative number is a non-empty run of digits with no leading zero |
| Decimal.Render | MVP/MVP/GitHub/API/Request/SearchUsersRequest.swift:18-23 | the rendering of `page`/`perPage` is non-empty, starts with a minus sign exactly for negative numbers, and is otherwise a run of digits with no leading zero (a lone `0` only for zero) |
| Decimal.RenderRoundTrip | MVP/MVP/GitHub/API/Request/SearchUsersRequest.swift:18-23 | parsing the rendering of any integer gives that integer back |
| Decimal.RenderInjective | MVP/MVP/GitHub/API/Request/SearchUsersRequest.swift:18-23 | two different page numbers never render to the same query value |
| SearchUsers.SortFromRaw | MVP/MVP/GitHub/API/Request/SearchUsersRequest.swift:49-53 | `Sort(rawValue:)` is the exact inverse of the raw values `followers`, `repositories`, `joined` |
| SearchUsers.OrderFromRaw | MVP/MVP/GitHub/API/Request/SearchUsersRequest.swift:55-58 | `Order(rawValue:)` is the exact inverse of the raw values `asc`, `desc` |
| SearchUsers.QueryParameters | MVP/MVP/GitHub/API/Request/SearchUsersRequest.swift:16-31 | never nil; `q` always maps to the query; `page`, `per_page`, `sort`, `order` each appear iff their field is present, with the decimal rendering or a raw value from the closed sets; no other key |
| SearchUsers.QueryParametersSize | MVP/MVP/GitHub/API/Request/SearchUsersRequest.swift:16-31 | the parameter map has 1 + (number of present optional fields) entries |
| SearchUsers.QueryParametersRoundTrip | MVP/MVP/GitHub/API/Request/SearchUsersRequest.swift:16-31 | the request can be read back from its query parameters unchanged |
| SearchUsers.QueryParametersInjective | MVP/MVP/GitHub/API/Request/SearchUsersRequest.swift:16-31 | two search requests with the same query parameters are the same request |
| SearchUsers.FullySpecifiedSearch | MVP/MVP/GitHub/API/Request/SearchUsersRequest.swift:16-31 | `tom`, followers, desc, page 2, 30 per page gives exactly `{q: tom, sort: followers, order: desc, page: 2, per_page: 30}` |
| SearchUsers.Descriptor | MVP/MVP/GitHub/API/Request/SearchUsersRequest.swift:10-16 | the search request is a GET on `/search/users` against the default base URL with the default headers and its own query parameters |
| Session.QueryItems | MVP/MVP/GitHub/API/Session.swift:55-58 | every query parameter becomes exactly one query item with the same name and value; none is dropped or duplicated and nothing else is added |
| Session.MergeConcat | MVP/MVP/GitHub/API/Session.swift:72-73 | the merged headers hold the keys of both maps; each value is the first map's value followed by the second's, an absent side contributing nothing |
| Session.MergeConcatEmpty | MVP/MVP/GitHub/API/Session.swift:72-73 | merging with an empty map on either side gives the other map |
| Session.MergeConcatDisjoint | MVP/MVP/GitHub/API/Session.swift:72-73 | without a shared key the merge is plain map union |
| Session.MergeConcatAssociative | MVP/MVP/GitHub/API/Session.swift:71-82 | the two successive merges give the same headers however they are nested |
| Session.MergeConcatVersusOverride | MVP/MVP/GitHub/API/Session.swift:72-73 | the merge agrees with "later value wins" on a key exactly when one map lacks it or the first value is empty |
| Session.AuthorizationHeader | MVP/MVP/GitHub/API/Session.swift:77-78 | a token contributes the single header `Authorization: token <accessToken>`; no token contributes none |
| Session.MergedHeaders | MVP/MVP/GitHub/API/Session.swift:67-76 | the keys are the descriptor's plus the additional ones (none when the provider yields nil); each value is the descriptor's value followed by the additional one, an absent side contributing nothing |
| Session.WithAuthorization | MVP/MVP/GitHub/API/Session.swift:77-82 | with a token the keys gain `Authorization` and its value is any merged value followed by `token <t>`; without one the merged headers are unchanged |
| Session.HeaderFields | MVP/MVP/GitHub/API/Session.swift:67-82 | the request's header keys are those of the descriptor, the additional headers and the Authorization header; each value is the concatenation, in that order, of what each level supplies |
| Session.HeaderFieldsPlain | MVP/MVP/GitHub/API/Session.swift:71-82 | without additional headers (nil or empty) and without a token the descriptor's headers are sent exactly |
| Session.HeaderFieldsWithToken | MVP/MVP/GitHub/API/Session.swift:77-82 | whatever the merged headers, a token adds the `Authorization` key, appends `token <t>` to any value it already had, and leaves every other header unchanged |
| Session.CollidingHeadersConcatenate | MVP/MVP/GitHub/API/Session.swift:71-82 | descriptor `X-Foo: a`, additional `X-Foo: b` and a token give exactly `X-Foo: ab` and `Authorization: token t` |
| Session.BuildRequest | MVP/MVP/GitHub/API/Session.swift:47-82 | fails with `failedToCreateComponents` exactly when the composed URL cannot be decomposed, and then carries that URL; with `failedToCreateURL` only on the components the source builds (the composed URL and the query items made from the parameters) when they give no URL, and otherwise yields a request whose query items are nil iff the parameters are, match the parameters one for one, whose method is the raw value and whose headers are the merged ones |
| Session.LinkPagination | MVP/MVP/GitHub/API/Session.swift:106-111 | without a `Link` header all four relations are absent; with one the pagination is what the parser makes of it |
| Session.Classify | MVP/MVP/GitHub/API/Session.swift:84-118 | first match wins: a transport error is delivered as is; then a missing or non-HTTP response is `noResponse`; then a missing body is `noData(response)`; then a status outside 200..<300 is `unacceptableStatusCode(status, decoded message)`; only then is the body decoded, success iff decoding succeeds, carrying the value and the `Link` pagination, and a decoding failure delivers the decoder's own error |
| Session.RejectedStatusIgnoresResponseDecoder | MVP/MVP/GitHub/API/Session.swift:100-104 | on a status outside 200..<300 the outcome does not depend on the response decoder: the body is never decoded as the response type |
| Session.AcceptedStatusIgnoresMessageDecoder | MVP/MVP/GitHub/API/Session.swift:100-118 | on a 2xx status the outcome does not depend on the error-message decoder |
| Session.TransportErrorFirst | MVP/MVP/GitHub/API/Session.swift:85-88 | a transport error decides the outcome whatever response and body came with it |
| Session.EmptyBodyIsDecoded | MVP/MVP/GitHub/API/Session.swift:95-118 | an empty but present body on a 2xx status is never `noData`; it succeeds iff the decoder accepts it |
| Session.Send | MVP/MVP/GitHub/API/Session.swift:42-124 | exactly one completion per call; a `URLSessionTask` is returned iff the request could be built, and then the completion is the classification of the transport's answer to that very request; otherwise it is the building error: `failedToCreateComponents` only with the composed URL and only when it does not decompose, `failedToCreateURL` carrying exactly the components built from the descriptor, which do not compose |
| Presenter.Init | MVP/MVP/SearchUser/SearchUserPresenter.swift:27 | a new presenter lists no users |
| Presenter.NumberOfUsers | MVP/MVP/SearchUser/SearchUserPresenter.swift:39-41 | the row count is the number of listed users |
| Presenter.UserForRow | MVP/MVP/SearchUser/SearchUserPresenter.swift:43-46 | for a row below the count the user on that row, for any larger row nil; negative rows are excluded because the source traps on them |
| Presenter.RowsMatchCount | MVP/MVP/SearchUser/SearchUserPresenter.swift:39-46 | a row yields a user exactly when it is below `numberOfUsers` |
| Presenter.DidSelectRow | MVP/MVP/SearchUser/SearchUserPresenter.swift:48-51 | state unchanged; out of range no view call; in range exactly one transition carrying that user's login |
| Presenter.SelectionNamesListedUser | MVP/MVP/SearchUser/SearchUserPresenter.swift:48-51 | every transition the presenter makes names the login of a listed user |
| Presenter.DidTapSearchButton | MVP/MVP/SearchUser/SearchUserPresenter.swift:53-57 | nil or empty text issues no fetch; other text issues exactly one fetch with that exact query; the state and the view are untouched |
| Presenter.FetchCompleted | MVP/MVP/SearchUser/SearchUserPresenter.swift:57-68 | a success replaces the list with the fetched users and tells the view once; a failure changes nothing and tells the view nothing |
| Presenter.FetchCompletedIdempotent | MVP/MVP/SearchUser/SearchUserPresenter.swift:57-68 | delivering the same completion twice leaves the same list as delivering it once |
| Presenter.ApplyCompletionsKeepsLastSuccess | MVP/MVP/SearchUser/SearchUserPresenter.swift:57-68 | after any sequence of completions the list is the last successful result, or the previous list if none succeeded |
| Presenter.SearchRound | MVP/MVP/SearchUser/SearchUserPresenter.swift:53-68 | a tap followed by its completion sets the list to the fetched users on success and leaves the presenter unchanged on failure or when no fetch was issued |

## Left out

- Transport: `URLSession.dataTask`, `resume` and cancellation through the returned `URLSessionTask` are I/O; the callback's arguments are an input (`Exchange`) computed from the built request, and the returned `URLSessionTask` is represented by the request it carries (`DataTask`).
- Foundation URL handling: `appendingPathComponent`, `URLComponents(url:resolvingAgainstBaseURL:)` and `URLComponents.url` are parameters (`Foundation`); URLs are plain strings.
- JSON decoding, including the `CodingKeys` of `User`, `ItemsResponse` and `SessionError.Message`: decoding outcomes are parameters (`Decoders`).
- `Pagination(link:)`: the `Link` header parser is not part of this model and is a parameter; only the branch without a `Link` header is fixed.
- `AccessToken`: its definition is not among the source files; it is modelled as a record holding the token string.
- The presenter's `[weak self]` and `weak view`: a presenter released before its completion arrives is not modelled; the view call dispatched with `DispatchQueue.main.async` is logged in the same step as the state change.
- `SearchUserViewController`, `AppDelegate` (UIKit rendering and wiring) and `SearchUserModel` (an empty class) are not modelled.
- Integer width: `page`, `perPage` and status codes are unbounded integers; Swift's 64-bit `Int` is not modelled, which changes nothing since the core does no arithmetic on them.
- The order of query items follows dictionary iteration order, which is unspecified; `Session.QueryItems` leaves it open.
- Header names are compared case-sensitively, as the dictionaries in the source do; the case-insensitive handling inside `URLRequest` and `HTTPURLResponse` is Foundation behaviour.
- Presenter.UserForRow: negative rows are a precondition (also of `Presenter.DidSelectRow`), because the source does not guard them and traps on the array access.
