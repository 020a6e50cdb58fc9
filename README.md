# Notion formula generator: connection, schema and requirements core

This project models the core of a web application that writes Notion
formulas from a user's plain-language requirements and from the structure
of one of their Notion databases. The model covers three parts:

- **Connecting a Notion account.** The client opens Notion's OAuth
  authorization page in a popup. A server route exchanges the
  authorization code for an access token: the token request of section
  4.1.3 of RFC 6749, authenticated with HTTP Basic as in RFC 7617. The
  route stores the token payload in the `notion_authentication` table,
  upserting on `bot_id`.
- **Reading the account's databases.** Three server routes look up the
  user's token and call Notion:
  - listing all databases;
  - searching them by a query of at least three characters;
  - retrieving one database's properties, each annotated with an icon, a
    colour and its type-specific details.
- **Three client stores.**
  - The Notion panel's state: connection, list, search, selected schema
    and the manual-structure fallback.
  - The selected database, mirrored into browser storage.
  - The requirements card: the saved input, the view toggle, and
    `generateFormula`'s validation and result handling.

The modelling choices:

- **Server routes are pure functions.** Each takes the request and how each
  external call ends: the token endpoint's reply, the credential lookup,
  the Notion call's result, whether a database write throws. It returns
  the JSON response together with the effects it has: the token request
  it sends, the store call it makes, and the Notion call it issues.
- **The credential service is a class.** It holds the lazily created client
  and the table. Its methods are proved to leave the table as the
  `Upsert` function says.
- **Client stores are classes with the source's fields.** Each action's
  effect is a specification function of the old state, the storage
  markers and the route's reply. The action's method is proved to end in
  that state, and the specification function's own contract states what
  the action promises.
- **Browser storage is a shared `Storage` object.** It maps keys to typed
  values, and a JSON value is kept as the value it encodes.

Supporting modules define:

- base64 (RFC 4648, section 4) with its decoding round trip;
- UTF-8 with its decoding round trip;
- the Basic credentials round trip;
- JavaScript's truthiness, UTF-16 `length` and `trim()`;
- the splitting of a URL query into `name=value` pairs.

## Model

| member | source | states |
|---|---|---|
| Base64.Encode | server/api/notion-connect.ts:74 | the encoding has four characters per started group of three octets, all from the base64 alphabet |
| Base64.DecodeEncode | server/api/notion-connect.ts:74 | decoding the base64 text of any octet string gives back exactly that string |
| BasicAuth.EncodeChar | server/api/notion-connect.ts:74 | a character takes 1 to 4 UTF-8 octets; ASCII is its own octet, and any other character's octets are all at least 0x80, so none is a colon |
| BasicAuth.Utf8DecodeEncode | server/api/notion-connect.ts:74 | the UTF-8 octets of any string decode back to the string |
| BasicAuth.SplitAtColon | server/api/notion-connect.ts:74 | splitting the credentials at the first colon: the part before holds no colon, and the parts with the colon rebuild the input |
| BasicAuth.Header | server/api/notion-connect.ts:74 | the header is the `Basic ` scheme followed by base64 text, four characters per started group of three octets of the UTF-8 credentials |
| BasicAuth.HeaderRoundTrip | server/api/notion-connect.ts:74 | the token endpoint recovers exactly the client id and secret from the `Basic` header when the id has no colon, as RFC 7617 requires |
| JsText.Utf16Length | server/api/notion-search-databases.ts:34 | JavaScript's `length` counts UTF-16 code units: between the number of characters and twice that, equal exactly when no character is astral |
| JsText.TrimStart | stores/requirements.ts:131 | removes exactly the leading whitespace: a suffix of the input, starting with a non-space, after only whitespace |
| JsText.TrimEnd | stores/requirements.ts:131 | removes exactly the trailing whitespace: a prefix of the input, ending in a non-space, before only whitespace |
| JsText.TrimEmptyIffBlank | stores/requirements.ts:131 | `trim()` gives the empty string if and only if every character is whitespace |
| SupabaseService.RowFor | server/service/supabase-service.ts:47-57 | the row carries the user id and the payload's fields, an empty template id or icon becomes SQL null, and both time columns are the current time |
| SupabaseService.Upsert | server/service/supabase-service.ts:45-61 | with the conflict target `bot_id`: bot ids stay unique, the new row is present, it is the only row for its bot, rows of other bots are untouched, and the table grows by one exactly when the bot was new |
| SupabaseService.RowsOf | server/service/supabase-service.ts:79-83 | `eq('user_id', …)` is a filter: each of the user's rows is selected as often as it occurs in the table, and no other row |
| SupabaseService.SingleByUser | server/service/supabase-service.ts:79-83 | `.single()` finds a row if and only if exactly one row of the table belongs to the user, and then it is that row; otherwise it answers the "no rows" code |
| SupabaseService.SingleMatch | server/service/supabase-service.ts:79-83 | when exactly one row belongs to the user, the selection is that row alone and `.single()` finds it |
| SupabaseService.ClassifyLookup | server/service/supabase-service.ts:85-90 | an error other than "no rows" is thrown as is, "no rows" is an absent credential, a row is returned (each an if-and-only-if) |
| SupabaseService.Service.constructor | server/service/supabase-service.ts:3 | the module starts without a client |
| SupabaseService.ClientAfter | server/service/supabase-service.ts:9-24 | the client after `getSupabaseClient`: the existing one, else one built from the URL and key exactly when both are non-empty, else none |
| SupabaseService.Service.GetSupabaseClient | server/service/supabase-service.ts:9-24 | an existing client is reused; otherwise one is created from the URL and key, or the call fails when either is missing, and no client is kept; the client kept is `ClientAfter` of the old one |
| SupabaseService.Service.StoreNotionAuth | server/service/supabase-service.ts:32-69 | the client kept is `ClientAfter` of the old one; without a client the call fails with the configuration error; with one, a database error is rethrown as is and the table is unchanged, and otherwise the table is the upsert of the new row |
| SupabaseService.Service.GetNotionAuth | server/service/supabase-service.ts:76-91 | the client kept is `ClientAfter` of the old one and the table is untouched; without a client the call fails with the configuration error; with one, the user's single-row lookup (or the query's own error) is read as `ClassifyLookup` says |
| SupabaseService.UpsertInPlace | server/service/supabase-service.ts:59-60 | storing again for a known bot overwrites that bot's row where it stands and moves no other row |
| SupabaseService.LookupAfterStore | server/service/supabase-service.ts:45-90 | after storing a credential for a user with no other bot, `getNotionAuth` for that user returns exactly the stored row |
| NotionConnect.ReadInput | server/api/notion-connect.ts:15-53 | a POST proceeds if and only if its body has a non-empty code and user id, and then with exactly those; any other method returns the provider's error, is refused without a code, and otherwise proceeds with the query's code and a fresh UUID as the user |
| NotionConnect.TokenRequestFor | server/api/notion-connect.ts:70-81 | a JSON POST to the token endpoint with the `authorization_code` grant and the code; for a colon-free client id its header yields exactly the client id and secret |
| NotionConnect.Handle | server/api/notion-connect.ts:8-120 | guards decide alone; configuration is checked before any exchange; exactly one token request when input and configuration pass; a store call only after a granted exchange, with its payload; success if and only if the store write went through, echoing what was written; a rejected exchange with a JSON body answers "Failed to exchange…", and anything thrown (unreachable endpoint, non-JSON body, failed store) answers "Internal server error" |
| NotionConnect.ExchangeAuthenticatesClient | server/api/notion-connect.ts:70-81 | the token request sent uses the `authorization_code` grant, and its header authenticates the configured client id and secret |
| NotionConnect.ConnectedThenFound | server/api/notion-connect.ts:95-112 | after a successful connection the stored row holds the returned bot, and the lookup by the returned user finds it |
| NotionApi.TitleOf | server/api/notion-databases.ts:67 | the first title segment's plain text when it is non-empty, else "Untitled Database"; never empty |
| NotionApi.Summaries | server/api/notion-databases.ts:63-71 | one list entry per search result, in order, with its id, title and both times |
| NotionApi.TokenFromTable | server/api/notion-databases.ts:35-47 | the routes' token lookup finds a token if and only if exactly one row belongs to the user, and it is that row's access token |
| NotionApi.TokenAfterStore | server/api/notion-databases.ts:34-47 | once a credential is stored for a user, the routes' token lookup for that user yields the stored access token |
| NotionDatabases.ListDatabases | server/api/notion-databases.ts:20-84 | no user id, no lookup; the lookup happens exactly for a user id; a failed lookup answers "Failed to retrieve…"; a Notion search with the user's token happens exactly when a token is found; the list is the projection of the search results exactly when the search answers; a client that cannot be created or a search that throws answers "Failed to fetch databases" |
| NotionDatabases.ListAfterStore | server/api/notion-databases.ts:34-76 | after a credential is stored, listing that user's databases searches Notion with the stored token and returns the projected results |
| NotionSearchDatabases.SearchDatabases | server/api/notion-search-databases.ts:20-94 | as the list route, and a missing query or one shorter than three UTF-16 units is refused before any lookup; the search carries the query and a page size of ten; a client that cannot be created or a search that throws answers "Failed to search databases" |
| NotionDatabaseSchema.ColorClass | server/api/notion-database-schema.ts:279-294 | a known colour's class, the default class for a missing or unknown colour; always one of the table's classes |
| NotionDatabaseSchema.ColorOptions | server/api/notion-database-schema.ts:107-118 | each option keeps its name and gets its colour's class, in order |
| NotionDatabaseSchema.Annotate | server/api/notion-database-schema.ts:70-258 | every property keeps its name, type and id; an unknown type gets the fallback icon and colour and no description; select, multi-select and status (and only these) carry coloured options; number carries its format and description; formula its expression; relation its related database; rollup its function |
| NotionDatabaseSchema.FallbackIconIffUnknown | server/api/notion-database-schema.ts:70-258 | the fallback icon appears if and only if the property type is not one of the known types |
| NotionDatabaseSchema.Properties | server/api/notion-database-schema.ts:70-259 | one annotated property per entry, in order, named after its key |
| NotionDatabaseSchema.DatabaseSchema | server/api/notion-database-schema.ts:28-276 | a database id is required before any lookup; retrieval with the user's token happens exactly when a token is found; the schema holds the database's id, title and annotated properties exactly when retrieval answers; a client that cannot be created or a retrieval that throws answers "Failed to fetch database schema" |
| ClientModel.Storage.SetItem | stores/notion_data.ts:68 | the key maps to the new value and nothing else changes |
| ClientModel.Storage.RemoveItem | stores/notion_data.ts:84 | the key is gone and nothing else changes |
| NotionFields.AfterFetchDatabases | stores/notion_fields.ts:84-110 | succeeds if and only if a user id is stored and the route lists databases; the store then holds exactly those; loading is over whatever happens; nothing else changes |
| NotionFields.AfterSearch | stores/notion_fields.ts:113-145 | a query under three UTF-16 units only hides the results; otherwise results are shown, searching is over, and the list is replaced if and only if the search succeeds; nothing else changes |
| NotionFields.AfterSearchQuery | stores/notion_fields.ts:62-70 | the query is stored, and results are shown if and only if it is long enough to search |
| NotionFields.AfterSchema | stores/notion_fields.ts:148-181 | an empty id changes nothing; success if and only if a user id is stored and the route returns a schema, which then sets the fields and title, hides the results and clears the query; on failure only loading ends |
| NotionFields.AfterConnectionCheck | stores/notion_fields.ts:228-240 | connected if and only if already connected or both markers are stored; then the databases are fetched, otherwise nothing changes |
| NotionFields.AuthorizeUrl | stores/notion_fields.ts:191 | the popup's address is the authorization endpoint, then `?`, then the query naming the client (interpolated, `undefined` when unset), the `code` response type and a user owner |
| NotionFields.AuthorizeUrlParams | stores/notion_fields.ts:191 | the popup's address asks for an authorization code for the configured client, owned by a user, and names no redirect URI |
| NotionFields.NotionStore.constructor | stores/notion_fields.ts:35-47 | the initial state, with the manual structure's placeholder text |
| NotionFields.NotionStore.ToggleManualInput | stores/notion_fields.ts:51-54 | only the manual-input flag changes, to the given value |
| NotionFields.NotionStore.UpdateManualDatabaseStructure | stores/notion_fields.ts:57-59 | only the manual structure changes, to the given text |
| NotionFields.NotionStore.ToggleSearchResults | stores/notion_fields.ts:73-75 | only the results' visibility changes, to the given value |
| NotionFields.NotionStore.FetchDatabases | stores/notion_fields.ts:84-110 | the new state and result are those of `AfterFetchDatabases` for the stored user marker |
| NotionFields.NotionStore.SearchDatabases | stores/notion_fields.ts:113-145 | the new state and result are those of `AfterSearch` |
| NotionFields.NotionStore.UpdateSearchQuery | stores/notion_fields.ts:62-70 | the new state is that of `AfterSearchQuery` |
| NotionFields.NotionStore.FetchDatabaseSchema | stores/notion_fields.ts:148-181 | the new state and result are those of `AfterSchema` |
| NotionFields.NotionStore.SelectDatabase | stores/notion_fields.ts:78-81 | the id is remembered, then the schema is loaded as `AfterSchema` says |
| NotionFields.NotionStore.CheckConnection | stores/notion_fields.ts:228-240 | the new state and result are those of `AfterConnectionCheck` for the stored markers |
| NotionFields.NotionStore.ConnectToNotion | stores/notion_fields.ts:184-225 | the popup opens at the authorization address; when it cannot open nothing changes; after it closes the markers decide as in `checkConnection` |
| NotionData.SavedSelection | stores/notion_data.ts:97-108 | a selection is read back if and only if the key holds a parsable selection; an absent or empty key gives none |
| NotionData.InitialSelection | stores/notion_data.ts:29-50 | a fresh store starts with the saved selection, else with the empty one |
| NotionData.SaveThenRead | stores/notion_data.ts:59-103 | a selection saved under `selectedDatabase` reads back as itself, and a reload starts with it |
| NotionData.RemoveThenRead | stores/notion_data.ts:75-103 | after removal nothing reads back, and a reload starts empty |
| NotionData.NotionDataStore.constructor | stores/notion_data.ts:29-50 | no databases, and the selection a reload finds |
| NotionData.NotionDataStore.SetDatabases | stores/notion_data.ts:54-56 | the list is replaced and the selection kept |
| NotionData.NotionDataStore.SetSelectedDatabase | stores/notion_data.ts:59-72 | the selection becomes the given one, the same value is saved, and it reads back |
| NotionData.NotionDataStore.ClearSelectedDatabase | stores/notion_data.ts:75-88 | the selection is emptied, the saved one removed, and nothing reads back |
| NotionData.NotionDataStore.ClearAll | stores/notion_data.ts:91-94 | the list and the selection are emptied and the saved selection removed |
| NotionData.NotionDataStore.LoadFromLocalStorage | stores/notion_data.ts:97-108 | reports success if and only if a selection is saved, and then adopts it; otherwise nothing changes |
| NotionData.SelectionSurvivesReload | stores/notion_data.ts:59-108 | once set, a selection loads back and a store built on the same storage starts with it |
| NotionData.ClearedStaysCleared | stores/notion_data.ts:75-108 | once cleared, nothing loads back and a reload starts empty |
| Requirements.OptionNames | stores/requirements.ts:84 | the options' names, in order |
| Requirements.Simplify | stores/requirements.ts:77-94 | name and type copied; option names if and only if a select or multi-select field has options; a format if and only if a number field has a non-empty one |
| Requirements.TransformDatabaseStructure | stores/requirements.ts:75-96 | one simplified field per entry, in order |
| Requirements.SavedRequirements | stores/requirements.ts:14-28 | a reload resumes the saved input and last requirements; when the key is missing, empty or does not parse as requirements it starts from an empty input and no last requirements |
| Requirements.InitialState | stores/requirements.ts:14-39 | a fresh store resumes the saved input and last requirements, with no formula, the requirements view, nothing loading and no error |
| Requirements.CardTitle | stores/requirements.ts:42 | the card is titled for the formula if and only if the formula is shown |
| Requirements.Toggled | stores/requirements.ts:63-72 | nothing happens before a formula exists; afterwards the view flips, and returning to the requirements restores the last ones when there are any; nothing else changes |
| Requirements.ToggleTwice | stores/requirements.ts:63-72 | two toggles restore the view and all but the input |
| Requirements.StructureError | stores/requirements.ts:105-114 | without manual input a database must be selected; with it the structure must be neither empty nor the placeholder (each an if-and-only-if) |
| Requirements.StructureFor | stores/requirements.ts:136-149 | the manual text in manual mode, else the selected database's fields simplified |
| Requirements.ReplyError | stores/requirements.ts:163-174 | no error if and only if the reply is ok and successful; else the reply's error, its fallback, or the network-failure message |
| Requirements.Generation | stores/requirements.ts:98-178 | a failed guard only sets its error; past it the input becomes the last requirements and loading ends; a blank input sends nothing; otherwise exactly the input and structure are sent, and the reply decides between a shown formula and an error |
| Requirements.Completion | stores/requirements.ts:163-174 | a successful reply shows its formula; any other only records the error |
| Requirements.TrimsToNothing | stores/requirements.ts:131 | the input trims to nothing if and only if it is blank |
| Requirements.SaveThenRead | stores/requirements.ts:14-57 | saved input and last requirements read back as themselves |
| Requirements.RequirementsStore.constructor | stores/requirements.ts:14-39 | a fresh store resumes the saved input and last requirements, everything else cleared |
| Requirements.RequirementsStore.UpdateUserInput | stores/requirements.ts:46-57 | the input changes and is saved with the last requirements, which read back |
| Requirements.RequirementsStore.UpdateGeneratedFormula | stores/requirements.ts:59-61 | only the formula changes |
| Requirements.RequirementsStore.ToggleView | stores/requirements.ts:63-72 | the new state is `Toggled` of the old one |
| Requirements.RequirementsStore.GenerateFormula | stores/requirements.ts:98-178 | the new state and request are those of `Generation` for the other stores' settings; the requirements are saved exactly when the structure guard passes |
| Requirements.RequirementsStore.Send | stores/requirements.ts:151-171 | sends the current input with the structure, and ends as `Completion` says |

## Left out

- The formula-generation route (server/api/formula-generate.ts) is not part of this model. It calls a language model whose reply is a parameter here (`FormulaReply`). The build configuration is left out too.
- Network, time and randomness are parameters:
  - the token endpoint's reply, the Notion calls' results, database errors and route replies;
  - the current time written to the credential rows;
  - the UUID a GET request receives.
- Logging and the `alert` after the popup closes have no effect on state and are not modelled.
- `NotionFields.NotionStore.ConnectToNotion`: the 500 ms polling for the popup to close is not modelled. The model does not show the authorization page writing `user_id` and `bot_id` into storage. The markers the store reads are those present when the method runs.
- `NotionFields.NotionStore.UpdateSearchQuery`: the search it starts is not awaited in the source. The model runs it to completion before returning, so interleavings with other actions are not captured.
- `NotionFields.AuthorizeUrlParams` is stated only for client ids without `&`, `#`, `%` or `+`. The source interpolates the id without escaping, and these characters would change how the query parses.
- URL encoding is not modelled: the `encodeURIComponent` of the search query, and the unescaped user id and database id in the client's route URLs. Route parameters arrive as the strings the client meant.
- JSON is not modelled as text. Stored values are typed (`StoredValue`), and `stringify` followed by `parse` is taken to give back the value. Text that does not parse is `Unparsable`.
  - Storing a JSON value of some other shape under `selectedDatabase` or `requirements` is not modelled. The source would adopt it as is.
  - Whether the manual structure parses as JSON is a parameter (`manualIsJson`).
  - A token reply that is not JSON is modelled by `Granted(None)`; in the source, reading its JSON throws.
- Storage writes that throw are not modelled. The source catches and logs them, so they change no modelled state.
- `NotionConnect.Handle`: the payload fields are taken to be strings as the token endpoint documents them; `owner` is kept as opaque text.
- The handler requires `redirectUri` in the configuration but never sends it; the model keeps both facts, and its `TokenRequest` has no redirect URI.
- `NotionDatabaseSchema.ColorClass`: keys inherited from JavaScript's object prototype (such as `toString`) are not modelled. Notion colours are a fixed set of names.
- `Object.entries` order is the order of the property sequence the Notion reply is modelled as.
- Property lists and selected fields are sequences of key/value pairs, which may repeat a key where a JavaScript object cannot. No contract depends on distinct keys.
- The schema route reads `userId` without checking it. The model abstracts the token lookup's outcome as a parameter, whatever the user id.
- Strings are sequences of Unicode scalar values, so lone UTF-16 surrogates are not modelled. `Utf16Length` counts astral characters as two units.
- `SupabaseService.SingleByUser`: any number of matching rows other than one gives the "no rows" code (`PGRST116`), as PostgREST reports it. Other database failures are a parameter.
- The credential table's unique constraint on `bot_id` is an assumption (`UniqueBots`) that the upsert preserves; the schema that declares it is not part of this model.
- The page components that call these stores and routes are not part of this model.
