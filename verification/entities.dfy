/** Plain data carried by successful responses; they have no behaviour. */
module Entities {

  /** URLs are plain strings throughout the model. */
  type Url = string

  /** A GitHub user as returned by the search endpoint. */
  datatype User = User(
    login: string,
    id: int,
    nodeID: string,
    avatarURL: Url,
    gravatarID: string,
    url: Url,
    receivedEventsURL: Url,
    userType: string)

  /** The envelope of list endpoints; `items` keeps the server's order and may
      be shorter than `totalCount` because results are paginated. */
  datatype ItemsResponse<Item> = ItemsResponse(
    totalCount: int,
    incompleteResults: bool,
    items: seq<Item>)
}
