/**
 * The database-search handler (server/api/notion-search-databases.ts):
 * like the list handler, with a query of at least three characters that
 * is passed to Notion with a page size of ten.
 */
module NotionSearchDatabases {
  import opened Wrappers
  import opened JsText
  import opened NotionApi

  const QueryTooShort: string := "Search query must be at least 3 characters"
  const SearchFailed: string := "Failed to search databases"
  const MinQueryLength: nat := 3
  const PageSize: nat := 10

  /** The query is present and at least three UTF-16 code units long. */
  predicate QueryAccepted(query: Option<string>) {
    Truthy(query) && Utf16Length(query.value) >= MinQueryLength
  }

  /** The handler for `?userId=&query=`, given how the token lookup and the search end. */
  function SearchDatabases(userId: Option<string>, query: Option<string>, lookup: TokenLookup,
                           reply: NotionReply<seq<ListedDatabase>>): (h: Handled<ListResponse>)
    ensures !Truthy(userId) ==> h == Handled(ListFailed(UserIdRequired), false, None)
    ensures Truthy(userId) && !QueryAccepted(query) ==> h == Handled(ListFailed(QueryTooShort), false, None)
    ensures h.lookedUp <==> Truthy(userId) && QueryAccepted(query)
    ensures h.lookedUp && lookup == LookupFailed ==> h.response == ListFailed(TokenUnavailable) && h.call == None
    ensures h.call.Some? <==> h.lookedUp && lookup.Token?
    ensures h.call.Some? ==> h.call.value == Search(lookup.accessToken, query, Some(PageSize))
    ensures h.response.Listed? <==> h.call.Some? && reply.NotionOk?
    ensures h.response.Listed? ==> h.response.databases == Summaries(reply.value)
    ensures h.lookedUp && h.response.ListFailed? && h.response.error != TokenUnavailable ==> h.response.error == SearchFailed
    // a client that cannot be created, or a Notion call that throws, is answered with the catch's message
    ensures h.lookedUp && lookup == ClientUnavailable ==> h.response == ListFailed(SearchFailed) && h.call == None
    ensures h.call.Some? && reply == NotionThrew ==> h.response == ListFailed(SearchFailed)
  {
    if !Truthy(userId) then Handled(ListFailed(UserIdRequired), false, None)
    else if !QueryAccepted(query) then Handled(ListFailed(QueryTooShort), false, None)
    else
      match lookup
      case ClientUnavailable => Handled(ListFailed(SearchFailed), true, None)
      case LookupFailed => Handled(ListFailed(TokenUnavailable), true, None)
      case Token(token) =>
        var call := Some(Search(token, query, Some(PageSize)));
        match reply
        case NotionThrew => Handled(ListFailed(SearchFailed), true, call)
        case NotionOk(results) => Handled(Listed(Summaries(results)), true, call)
  }
}
