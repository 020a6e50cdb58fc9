/**
 * The database-list handler (server/api/notion-databases.ts): the user's
 * token, then a Notion search restricted to databases, projected onto
 * list entries.
 */
module NotionDatabases {
  import opened Wrappers
  import opened JsText
  import opened NotionApi
  import SupabaseService

  const FetchFailed: string := "Failed to fetch databases"

  /** The handler for `?userId=`, given how the token lookup and the search end. */
  function ListDatabases(userId: Option<string>, lookup: TokenLookup, reply: NotionReply<seq<ListedDatabase>>)
    : (h: Handled<ListResponse>)
    ensures !Truthy(userId) ==> h == Handled(ListFailed(UserIdRequired), false, None)
    ensures h.lookedUp <==> Truthy(userId)
    ensures Truthy(userId) && lookup == LookupFailed ==> h.response == ListFailed(TokenUnavailable) && h.call == None
    ensures h.call.Some? <==> Truthy(userId) && lookup.Token?
    ensures h.call.Some? ==> h.call.value == Search(lookup.accessToken, None, None)
    ensures h.response.Listed? <==> h.call.Some? && reply.NotionOk?
    ensures h.response.Listed? ==> h.response.databases == Summaries(reply.value)
    ensures h.lookedUp && h.response.ListFailed? && h.response.error != TokenUnavailable ==> h.response.error == FetchFailed
    // a client that cannot be created, or a Notion call that throws, is answered with the catch's message
    ensures h.lookedUp && lookup == ClientUnavailable ==> h.response == ListFailed(FetchFailed) && h.call == None
    ensures h.call.Some? && reply == NotionThrew ==> h.response == ListFailed(FetchFailed)
  {
    if !Truthy(userId) then Handled(ListFailed(UserIdRequired), false, None)
    else
      match lookup
      case ClientUnavailable => Handled(ListFailed(FetchFailed), true, None)
      case LookupFailed => Handled(ListFailed(TokenUnavailable), true, None)
      case Token(token) =>
        var call := Some(Search(token, None, None));
        match reply
        case NotionThrew => Handled(ListFailed(FetchFailed), true, call)
        case NotionOk(results) => Handled(Listed(Summaries(results)), true, call)
  }

  /**
   * After a credential is stored for a user, listing that user's databases
   * searches Notion with the stored access token, and the list returned is
   * the projection of what the search answers.
   */
  lemma ListAfterStore(rows: seq<SupabaseService.Row>, userId: string, auth: SupabaseService.AuthData, now: string,
                       reply: NotionReply<seq<ListedDatabase>>)
    requires SupabaseService.UniqueBots(rows) && userId != ""
    requires forall x :: x in rows && x.userId == userId ==> x.botId == auth.botId
    ensures var table := SupabaseService.Upsert(rows, SupabaseService.RowFor(userId, auth, now));
      var h := ListDatabases(Some(userId), TokenFromTable(table, userId), reply);
      h.call == Some(Search(auth.accessToken, None, None))
      && (reply.NotionOk? ==> h.response == Listed(Summaries(reply.value)))
  {
    TokenAfterStore(rows, userId, auth, now);
  }
}
