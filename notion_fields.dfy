/**
 * The client store behind the Notion panel: connection state, the
 * database list and search, the selected database's schema and the
 * manual-structure fallback. Each action's effect on the state is a
 * function of the old state, the storage markers and the API reply; the
 * class's methods change their fields step by step and are proved to
 * end in the state that function gives.
 */
module NotionFields {
  import opened Wrappers
  import opened JsText
  import opened ClientModel
  import opened NotionApi
  import opened NotionDatabaseSchema
  import opened QueryString

  const UserIdKey: string := "user_id"
  const BotIdKey: string := "bot_id"
  const ManualPlaceholder: string := "Define your database structure..."
  const AuthorizeEndpoint: string := "https://api.notion.com/v1/oauth/authorize"
  const MinSearchLength: nat := 3

  /** The store's state; `fields` is the property list the schema route returns. */
  datatype NotionState = NotionState(
    isConnected: bool,
    isLoading: bool,
    isSearching: bool,
    databases: seq<DatabaseSummary>,
    fields: seq<PropertyView>,
    databaseTitle: string,
    selectedDatabaseId: string,
    useManualInput: bool,
    manualDatabaseStructure: string,
    searchQuery: string,
    showSearchResults: bool)

  const Initial: NotionState :=
    NotionState(false, false, false, [], [], "", "", false, ManualPlaceholder, "", false)

  /** A query long enough to search for, counted in UTF-16 code units. */
  predicate LongEnough(query: string) {
    Utf16Length(query) >= MinSearchLength
  }

  /** The popup's address: the authorization request of section 4.1.1 of RFC 6749. */
  function AuthorizeUrl(clientId: Option<string>): (url: string)
    ensures |AuthorizeEndpoint| < |url| && url[..|AuthorizeEndpoint|] == AuthorizeEndpoint && url[|AuthorizeEndpoint|] == '?'
    ensures Query(url) == "client_id=" + Interpolate(clientId) + "&response_type=code&owner=user"
  {
    var query := "client_id=" + Interpolate(clientId) + "&response_type=code&owner=user";
    assert '?' !in AuthorizeEndpoint by {}
    IndexOfAfter(AuthorizeEndpoint, '?', query);
    AuthorizeEndpoint + "?" + query
  }

  /**
   * `fetchDatabases`: only `isLoading` and `databases` change; loading is
   * over whatever happens, and on success the store holds exactly the
   * databases it reports.
   */
  function AfterFetchDatabases(s: NotionState, userMarked: bool, reply: Fetched<ListResponse>)
    : (out: (NotionState, ActionResult<seq<DatabaseSummary>>))
    ensures out.1.Succeeded? <==> userMarked && reply.Received? && reply.body.Listed?
    ensures out.1.Succeeded? ==> out.1.value == reply.body.databases
    ensures out.0.databases == (if out.1.Succeeded? then out.1.value else s.databases)
    ensures !out.0.isLoading
    ensures out.0.(isLoading := s.isLoading, databases := s.databases) == s
  {
    var done := s.(isLoading := false);
    if !userMarked then (done, NotSucceeded)
    else match reply
      case FetchFailed => (done, NotSucceeded)
      case Received(Listed(databases)) => (done.(databases := databases), Succeeded(databases))
      case Received(ListFailed(_)) => (done, NotSucceeded)
  }

  /**
   * `searchDatabases`: a short query only hides the results; otherwise
   * the results are shown, searching is over, and the list is replaced
   * exactly when the search succeeds. Nothing else changes.
   */
  function AfterSearch(s: NotionState, userMarked: bool, reply: Fetched<ListResponse>)
    : (out: (NotionState, ActionResult<seq<DatabaseSummary>>))
    ensures !LongEnough(s.searchQuery) ==> out == (s.(showSearchResults := false), NotSucceeded)
    ensures LongEnough(s.searchQuery) ==> out.0.showSearchResults && !out.0.isSearching
    ensures out.1.Succeeded? <==> LongEnough(s.searchQuery) && userMarked && reply.Received? && reply.body.Listed?
    ensures out.1.Succeeded? ==> out.1.value == reply.body.databases
    ensures out.0.databases == (if out.1.Succeeded? then out.1.value else s.databases)
    ensures out.0.(isSearching := s.isSearching, showSearchResults := s.showSearchResults, databases := s.databases) == s
  {
    if !LongEnough(s.searchQuery) then (s.(showSearchResults := false), NotSucceeded)
    else
      var done := s.(isSearching := false, showSearchResults := true);
      if !userMarked then (done, NotSucceeded)
      else match reply
        case FetchFailed => (done, NotSucceeded)
        case Received(Listed(databases)) => (done.(databases := databases), Succeeded(databases))
        case Received(ListFailed(_)) => (done, NotSucceeded)
  }

  /**
   * `updateSearchQuery`: the query is stored, and the results are shown
   * exactly when it is long enough to search (the search, which is not
   * awaited, is taken to run to its end).
   */
  function AfterSearchQuery(s: NotionState, value: string, userMarked: bool, reply: Fetched<ListResponse>)
    : (out: NotionState)
    ensures out.searchQuery == value
    ensures out.showSearchResults <==> LongEnough(value)
    ensures !LongEnough(value) ==> out == s.(searchQuery := value, showSearchResults := false)
    ensures LongEnough(value) ==> out == AfterSearch(s.(searchQuery := value), userMarked, reply).0
  {
    if LongEnough(value) then AfterSearch(s.(searchQuery := value), userMarked, reply).0
    else s.(searchQuery := value, showSearchResults := false)
  }

  /**
   * `fetchDatabaseSchema`: an empty id changes nothing; otherwise loading
   * is over whatever happens, and on success the store shows the schema's
   * properties and title and clears the search.
   */
  function AfterSchema(s: NotionState, databaseId: string, userMarked: bool, reply: Fetched<SchemaResponse>)
    : (out: (NotionState, ActionResult<SchemaResponse>))
    ensures databaseId == "" ==> out == (s, NotSucceeded)
    ensures out.1.Succeeded? <==> databaseId != "" && userMarked && reply.Received? && reply.body.Schema?
    ensures out.1.Succeeded? ==> out.1.value == reply.body
    ensures out.1.Succeeded? ==>
      out.0 == s.(isLoading := false, fields := reply.body.properties, databaseTitle := reply.body.title,
                  showSearchResults := false, searchQuery := "")
    ensures databaseId != "" && out.1.NotSucceeded? ==> out.0 == s.(isLoading := false)
  {
    if databaseId == "" then (s, NotSucceeded)
    else
      var done := s.(isLoading := false);
      if !userMarked then (done, NotSucceeded)
      else match reply
        case FetchFailed => (done, NotSucceeded)
        case Received(Schema(id, title, properties)) =>
          (done.(fields := properties, databaseTitle := title, showSearchResults := false, searchQuery := ""),
           Succeeded(reply.body))
        case Received(SchemaFailed(_)) => (done, NotSucceeded)
  }

  /**
   * After the popup closes, and on mount: with both markers present the
   * store is connected and loads the databases; otherwise nothing
   * changes. A connected store never becomes disconnected.
   */
  function AfterConnectionCheck(s: NotionState, userMarked: bool, botMarked: bool, reply: Fetched<ListResponse>)
    : (out: (NotionState, ActionResult<seq<DatabaseSummary>>))
    ensures out.0.isConnected <==> s.isConnected || (userMarked && botMarked)
    ensures out.1.Succeeded? ==> userMarked && botMarked
    ensures userMarked && botMarked ==> out == AfterFetchDatabases(s.(isConnected := true), true, reply)
    ensures !(userMarked && botMarked) ==> out == (s, NotSucceeded)
  {
    if userMarked && botMarked then AfterFetchDatabases(s.(isConnected := true), true, reply)
    else (s, NotSucceeded)
  }

  /**
   * The popup asks Notion for an authorization code for this client:
   * the query names the client, the `code` response type and a user
   * owner (client ids without `&`, `#`, `%` or `+`, which would need
   * escaping).
   */
  lemma AuthorizeUrlParams(clientId: string)
    requires '&' !in clientId && '#' !in clientId && '%' !in clientId && '+' !in clientId
    ensures Param(AuthorizeUrl(Some(clientId)), "client_id") == Some(clientId)
    ensures Param(AuthorizeUrl(Some(clientId)), "response_type") == Some("code")
    ensures Param(AuthorizeUrl(Some(clientId)), "owner") == Some("user")
    ensures Param(AuthorizeUrl(Some(clientId)), "redirect_uri") == None
  {
    AuthorizeQuery(clientId);
    assert '&' !in "client_id" && '&' !in "response_type" && '&' !in "code" && '&' !in "owner" && '&' !in "user" by {}
    assert '=' !in "client_id" && '=' !in "response_type" && '=' !in "owner" by {}
    ThreePairs("client_id", clientId, "response_type", "code", "owner", "user", "redirect_uri");
  }

  /** The query of the popup's address is everything after the endpoint's `?`: three pairs. */
  lemma AuthorizeQuery(clientId: string)
    ensures Query(AuthorizeUrl(Some(clientId)))
         == "client_id" + "=" + clientId + ("&" + "response_type" + "=" + "code" + "&" + "owner" + "=" + "user")
  {
    QueryPairs(clientId);
  }

  /** The query text written pair by pair. */
  lemma QueryPairs(clientId: string)
    ensures "client_id=" + clientId + "&response_type=code&owner=user"
         == "client_id" + "=" + clientId + ("&" + "response_type" + "=" + "code" + "&" + "owner" + "=" + "user")
  {
    assert "client_id=" == "client_id" + "=" by {}
    assert "&response_type=code&owner=user" == "&" + "response_type" + "=" + "code" + "&" + "owner" + "=" + "user" by {}
  }

  class NotionStore {
    var isConnected: bool
    var isLoading: bool
    var isSearching: bool
    var databases: seq<DatabaseSummary>
    var fields: seq<PropertyView>
    var databaseTitle: string
    var selectedDatabaseId: string
    var useManualInput: bool
    var manualDatabaseStructure: string
    var searchQuery: string
    var showSearchResults: bool
    /** The browser storage the markers are read from. */
    const storage: Storage

    function State(): NotionState
      reads this
    {
      NotionState(isConnected, isLoading, isSearching, databases, fields, databaseTitle,
                  selectedDatabaseId, useManualInput, manualDatabaseStructure, searchQuery, showSearchResults)
    }

    /** `localStorage.getItem('user_id')` is truthy. */
    predicate UserMarked()
      reads this, storage
    {
      HasItem(storage.items, UserIdKey)
    }

    predicate BotMarked()
      reads this, storage
    {
      HasItem(storage.items, BotIdKey)
    }

    constructor(storage: Storage)
      ensures State() == Initial
      ensures this.storage == storage
    {
      isConnected := false;
      isLoading := false;
      isSearching := false;
      databases := [];
      fields := [];
      databaseTitle := "";
      selectedDatabaseId := "";
      useManualInput := false;
      manualDatabaseStructure := ManualPlaceholder;
      searchQuery := "";
      showSearchResults := false;
      this.storage := storage;
    }

    method ToggleManualInput(value: bool)
      modifies this
      ensures State() == old(State()).(useManualInput := value)
    {
      useManualInput := value;
    }

    method UpdateManualDatabaseStructure(value: string)
      modifies this
      ensures State() == old(State()).(manualDatabaseStructure := value)
    {
      manualDatabaseStructure := value;
    }

    method ToggleSearchResults(value: bool)
      modifies this
      ensures State() == old(State()).(showSearchResults := value)
    {
      showSearchResults := value;
    }

    method FetchDatabases(reply: Fetched<ListResponse>) returns (r: ActionResult<seq<DatabaseSummary>>)
      modifies this
      ensures (State(), r) == AfterFetchDatabases(old(State()), UserMarked(), reply)
    {
      isLoading := true;
      if !HasItem(storage.items, UserIdKey) {
        r := NotSucceeded;
      } else if reply.Received? && reply.body.Listed? {
        databases := reply.body.databases;
        r := Succeeded(reply.body.databases);
      } else {
        r := NotSucceeded;
      }
      isLoading := false;
    }

    method SearchDatabases(reply: Fetched<ListResponse>) returns (r: ActionResult<seq<DatabaseSummary>>)
      modifies this
      ensures (State(), r) == AfterSearch(old(State()), UserMarked(), reply)
    {
      if Utf16Length(searchQuery) < MinSearchLength {
        showSearchResults := false;
        return NotSucceeded;
      }
      isSearching := true;
      showSearchResults := true;
      if !HasItem(storage.items, UserIdKey) {
        r := NotSucceeded;
      } else if reply.Received? && reply.body.Listed? {
        databases := reply.body.databases;
        r := Succeeded(reply.body.databases);
      } else {
        r := NotSucceeded;
      }
      isSearching := false;
    }

    method UpdateSearchQuery(value: string, reply: Fetched<ListResponse>)
      modifies this
      ensures State() == AfterSearchQuery(old(State()), value, UserMarked(), reply)
    {
      searchQuery := value;
      if Utf16Length(value) >= MinSearchLength {
        var _ := SearchDatabases(reply);
      } else {
        showSearchResults := false;
      }
    }

    method FetchDatabaseSchema(databaseId: string, reply: Fetched<SchemaResponse>) returns (r: ActionResult<SchemaResponse>)
      modifies this
      ensures (State(), r) == AfterSchema(old(State()), databaseId, UserMarked(), reply)
    {
      if databaseId == "" {
        return NotSucceeded;
      }
      isLoading := true;
      if !HasItem(storage.items, UserIdKey) {
        r := NotSucceeded;
      } else if reply.Received? && reply.body.Schema? {
        fields := reply.body.properties;
        databaseTitle := reply.body.title;
        showSearchResults := false;
        searchQuery := "";
        r := Succeeded(reply.body);
      } else {
        r := NotSucceeded;
      }
      isLoading := false;
    }

    /** `selectDatabase`: remembers the id, then loads its schema. */
    method SelectDatabase(databaseId: string, reply: Fetched<SchemaResponse>) returns (r: ActionResult<SchemaResponse>)
      modifies this
      ensures (State(), r) == AfterSchema(old(State()).(selectedDatabaseId := databaseId), databaseId, UserMarked(), reply)
      ensures selectedDatabaseId == databaseId
    {
      selectedDatabaseId := databaseId;
      r := FetchDatabaseSchema(databaseId, reply);
    }

    /** `checkConnection`: both markers present means connected; then the databases are loaded. */
    method CheckConnection(reply: Fetched<ListResponse>) returns (r: ActionResult<seq<DatabaseSummary>>)
      modifies this
      ensures (State(), r) == AfterConnectionCheck(old(State()), UserMarked(), BotMarked(), reply)
    {
      if HasItem(storage.items, UserIdKey) && HasItem(storage.items, BotIdKey) {
        isConnected := true;
        r := FetchDatabases(reply);
      } else {
        r := NotSucceeded;
      }
    }

    /**
     * `connectToNotion`: opens the authorization popup at `url`; when the
     * popup could not be opened nothing changes. Otherwise, once it has
     * closed, the markers the callback page left in storage decide as in
     * `checkConnection`.
     */
    method ConnectToNotion(clientId: Option<string>, popupOpened: bool, reply: Fetched<ListResponse>)
      returns (url: string, r: ActionResult<seq<DatabaseSummary>>)
      modifies this
      ensures url == AuthorizeUrl(clientId)
      ensures !popupOpened ==> r == NotSucceeded && State() == old(State())
      ensures popupOpened ==> (State(), r) == AfterConnectionCheck(old(State()), UserMarked(), BotMarked(), reply)
    {
      url := AuthorizeUrl(clientId);
      if !popupOpened {
        r := NotSucceeded;
        return;
      }
      r := CheckConnection(reply);
    }
  }
}
