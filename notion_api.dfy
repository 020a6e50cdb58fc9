/**
 * What the three Notion API handlers share: the token lookup that starts
 * each of them, the Notion calls they make, the title fallback and the
 * projection of a search result onto the list entry the client receives.
 */
module NotionApi {
  import opened Wrappers
  import opened JsText
  import opened SupabaseService

  const UntitledDatabase: string := "Untitled Database"
  const UserIdRequired: string := "User ID is required"
  const TokenUnavailable: string := "Failed to retrieve Notion access token"

  /** A rich-text segment of a database title. */
  datatype RichText = RichText(plainText: Option<string>)

  /** `title?.[0]?.plain_text || 'Untitled Database'`. */
  function TitleOf(title: Option<seq<RichText>>): (t: string)
    ensures t != ""
    ensures title.Some? && |title.value| > 0 && Truthy(title.value[0].plainText) ==> t == title.value[0].plainText.value
    ensures !(title.Some? && |title.value| > 0 && Truthy(title.value[0].plainText)) ==> t == UntitledDatabase
  {
    if title.Some? && |title.value| > 0 then OrElse(title.value[0].plainText, UntitledDatabase)
    else UntitledDatabase
  }

  /**
   * How the `access_token` lookup of a handler ends: creating the database
   * client throws, the query reports an error or finds no row, or a token
   * is found.
   */
  datatype TokenLookup = ClientUnavailable | LookupFailed | Token(accessToken: string)

  /**
   * `.select('access_token').eq('user_id', userId).single()` of a handler,
   * read against the table once the client exists: an error or a missing
   * row is a failed lookup.
   */
  function TokenFromTable(rows: seq<Row>, userId: string): (l: TokenLookup)
    ensures l != ClientUnavailable
    ensures l.Token? <==> |RowsOf(rows, userId)| == 1
    ensures l.Token? ==> l.accessToken == RowsOf(rows, userId)[0].accessToken && RowsOf(rows, userId)[0] in rows
  {
    match SingleByUser(rows, userId)
    case Found(row) => Token(row.accessToken)
    case QueryError(_) => LookupFailed
  }

  /**
   * Once a credential is stored for a user who owns no other bot's row,
   * the handlers' lookup by that user yields the stored access token.
   */
  lemma TokenAfterStore(rows: seq<Row>, userId: string, auth: AuthData, now: string)
    requires UniqueBots(rows)
    requires forall x :: x in rows && x.userId == userId ==> x.botId == auth.botId
    ensures TokenFromTable(Upsert(rows, RowFor(userId, auth, now)), userId) == Token(auth.accessToken)
  {
    LookupAfterStore(rows, userId, auth, now);
  }

  /** The Notion API calls the handlers make, with the token they authenticate with. */
  datatype NotionCall =
    | Search(token: string, query: Option<string>, pageSize: Option<nat>)
    | Retrieve(token: string, databaseId: string)

  /** The answer of a Notion call: it throws, or it returns a value. */
  datatype NotionReply<T> = NotionThrew | NotionOk(value: T)

  /**
   * A handler's response and what it did: whether it got past its input
   * guards to the token lookup (which may still fail to create the
   * database client), and which Notion call it made.
   */
  datatype Handled<R> = Handled(response: R, lookedUp: bool, call: Option<NotionCall>)

  /** A database as a Notion search returns it (only the fields the handlers read). */
  datatype ListedDatabase = ListedDatabase(id: string, title: Option<seq<RichText>>, createdTime: string, lastEditedTime: string)

  /** The list entry a handler returns for one database. */
  datatype DatabaseSummary = DatabaseSummary(id: string, title: string, createdTime: string, lastEditedTime: string)

  /** The JSON of the two list handlers. */
  datatype ListResponse = Listed(databases: seq<DatabaseSummary>) | ListFailed(error: string)

  /** `results.map(...)` of the list handlers: one entry per result, in order. */
  function Summaries(results: seq<ListedDatabase>): (r: seq<DatabaseSummary>)
    ensures |r| == |results|
    ensures forall i :: 0 <= i < |r| ==>
      r[i].id == results[i].id && r[i].title == TitleOf(results[i].title)
      && r[i].createdTime == results[i].createdTime && r[i].lastEditedTime == results[i].lastEditedTime
  {
    if results == [] then []
    else
      var db := results[0];
      [DatabaseSummary(db.id, TitleOf(db.title), db.createdTime, db.lastEditedTime)] + Summaries(results[1..])
  }
}
