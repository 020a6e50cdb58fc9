/**
 * The authorization-code exchange handler (server/api/notion-connect.ts):
 * the token request of section 4.1.3 of RFC 6749, authenticated with HTTP
 * Basic, followed by one write to the credential store. The handler is a
 * function of the request, the configuration, a fresh UUID, the token
 * endpoint's reply and whether the store write throws; it yields the
 * response together with the token request and the store write it makes.
 */
module NotionConnect {
  import opened Wrappers
  import opened JsText
  import BasicAuth
  import opened SupabaseService

  const TokenEndpoint: string := "https://api.notion.com/v1/oauth/token"
  const GrantType: string := "authorization_code"

  const MissingCodeOrUser: string := "Authorization code or user ID is missing"
  const MissingCode: string := "Authorization code is missing"
  const ConfigurationError: string := "Server configuration error"
  const ExchangeFailed: string := "Failed to exchange authorization code for access token"
  const InternalError: string := "Internal server error"

  /** The three runtime settings the exchange needs. */
  datatype ConnectConfig = ConnectConfig(clientId: Option<string>, clientSecret: Option<string>, redirectUri: Option<string>)

  /** The JSON body of a POST. */
  datatype PostBody = PostBody(code: Option<string>, userId: Option<string>)

  /**
   * An incoming request: its HTTP method, its body (`None` when there is none
   * or it is not JSON) and the `code` and `error` query parameters.
   */
  datatype Request = Request(verb: string, body: Option<PostBody>, queryCode: Option<string>, queryError: Option<string>)

  /** The POST the handler sends to the token endpoint. */
  datatype TokenRequest = TokenRequest(url: string, contentType: string, authorization: string, grantType: string, code: string)

  /** How the token endpoint answers. */
  datatype TokenReply =
    | Unreachable                          // the fetch itself rejects
    | Rejected(bodyIsJson: bool)           // a status outside 2xx
    | Granted(payload: Option<AuthData>)   // a 2xx status; `None` when the body is not JSON

  /** The JSON the handler returns; every failure has `success: false`. */
  datatype Response =
    | Failed(error: string)
    | Connected(workspaceName: string, workspaceId: string, userId: string, botId: string)

  /** The call `storeNotionAuth(userId, auth)`. */
  datatype StoreCall = StoreCall(userId: string, auth: AuthData)

  /** The response and the two effects, each absent when it does not happen. */
  datatype Outcome = Outcome(response: Response, exchange: Option<TokenRequest>, store: Option<StoreCall>)

  /** The code and user id the handler goes on with, or its early response. */
  datatype Input = Proceed(code: string, userId: string) | Return(response: Response)

  /** All three settings are present and non-empty. */
  predicate ConfigComplete(config: ConnectConfig) {
    Truthy(config.clientId) && Truthy(config.clientSecret) && Truthy(config.redirectUri)
  }

  /**
   * The first guards: a POST takes the code and user id from its body; any
   * other method reports a provider error verbatim, then needs a code and
   * uses a fresh UUID as the user id.
   */
  function ReadInput(req: Request, freshUuid: string): (i: Input)
    ensures i.Proceed? ==> i.code != ""
    ensures i.Proceed? && req.verb == "POST" ==>
      req.body.Some? && Some(i.code) == req.body.value.code && Some(i.userId) == req.body.value.userId && i.userId != ""
    ensures i.Proceed? && req.verb != "POST" ==> i.userId == freshUuid && Some(i.code) == req.queryCode
    ensures req.verb == "POST" && req.body.Some? && i.Return? ==> i.response == Failed(MissingCodeOrUser)
    ensures req.verb == "POST" && req.body.None? ==> i == Return(Failed(InternalError))
    ensures req.verb != "POST" && Truthy(req.queryError) ==> i == Return(Failed(req.queryError.value))
    ensures req.verb != "POST" && !Truthy(req.queryError) && i.Return? ==> i.response == Failed(MissingCode)
    ensures req.verb == "POST" && req.body.Some? && Truthy(req.body.value.code) && Truthy(req.body.value.userId) ==>
      i == Proceed(req.body.value.code.value, req.body.value.userId.value)
    ensures req.verb != "POST" && !Truthy(req.queryError) && Truthy(req.queryCode) ==>
      i == Proceed(req.queryCode.value, freshUuid)
  {
    if req.verb == "POST" then
      match req.body
      case None => Return(Failed(InternalError))  // reading `body.code` of an absent body throws
      case Some(body) =>
        if !Truthy(body.code) || !Truthy(body.userId) then Return(Failed(MissingCodeOrUser))
        else Proceed(body.code.value, body.userId.value)
    else if Truthy(req.queryError) then Return(Failed(req.queryError.value))
    else if !Truthy(req.queryCode) then Return(Failed(MissingCode))
    else Proceed(req.queryCode.value, freshUuid)
  }

  /** The token request for a code, authenticated with the client id and secret. */
  function TokenRequestFor(clientId: string, clientSecret: string, code: string): (t: TokenRequest)
    ensures t.url == TokenEndpoint && t.contentType == "application/json"
    ensures t.grantType == GrantType && t.code == code
    ensures ':' !in clientId ==> BasicAuth.ParseHeader(t.authorization) == Some((clientId, clientSecret))
  {
    var t := TokenRequest(TokenEndpoint, "application/json", BasicAuth.Header(clientId, clientSecret), GrantType, code);
    if ':' in clientId then t
    else
      BasicAuth.HeaderRoundTrip(clientId, clientSecret);
      t
  }

  /** The whole handler, its `try`/`catch` included. */
  function Handle(req: Request, config: ConnectConfig, freshUuid: string, reply: TokenReply, storeThrows: bool): (o: Outcome)
    // the early guards decide alone; nothing is exchanged or stored
    ensures ReadInput(req, freshUuid).Return? ==> o == Outcome(ReadInput(req, freshUuid).response, None, None)
    // the configuration is looked at only once the input is accepted
    ensures ReadInput(req, freshUuid).Proceed? && !ConfigComplete(config) ==> o == Outcome(Failed(ConfigurationError), None, None)
    // exactly one token request, exactly when input and configuration pass
    ensures o.exchange.Some? <==> ReadInput(req, freshUuid).Proceed? && ConfigComplete(config)
    ensures o.exchange.Some? ==>
      o.exchange.value == TokenRequestFor(config.clientId.value, config.clientSecret.value, ReadInput(req, freshUuid).code)
    // a store write follows only a granted exchange, with the payload as received
    ensures o.store.Some? <==> o.exchange.Some? && reply.Granted? && reply.payload.Some?
    ensures o.store.Some? ==> o.store.value == StoreCall(ReadInput(req, freshUuid).userId, reply.payload.value)
    ensures o.exchange.Some? && reply == Rejected(true) ==> o.response == Failed(ExchangeFailed)
    // anything thrown past the exchange is answered with the catch's message
    ensures o.exchange.Some? && (reply == Unreachable || reply == Rejected(false) || reply == Granted(None)) ==>
      o.response == Failed(InternalError)
    ensures o.store.Some? && storeThrows ==> o.response == Failed(InternalError)
    // success means the write went through, and echoes what was written
    ensures o.response.Connected? <==> o.store.Some? && !storeThrows
    ensures o.response.Connected? ==>
      var call := o.store.value;
      o.response == Connected(call.auth.workspaceName, call.auth.workspaceId, call.userId, call.auth.botId)
    // after the exchange has been sent, every failure is one of two fixed messages
    ensures o.exchange.Some? && o.response.Failed? ==> o.response.error == ExchangeFailed || o.response.error == InternalError
  {
    match ReadInput(req, freshUuid)
    case Return(response) => Outcome(response, None, None)
    case Proceed(code, userId) =>
      if !ConfigComplete(config) then Outcome(Failed(ConfigurationError), None, None)
      else
        var exchange := Some(TokenRequestFor(config.clientId.value, config.clientSecret.value, code));
        match reply
        case Unreachable => Outcome(Failed(InternalError), exchange, None)
        case Rejected(bodyIsJson) =>
          // reading the error body as JSON throws when it is not JSON
          Outcome(Failed(if bodyIsJson then ExchangeFailed else InternalError), exchange, None)
        case Granted(None) => Outcome(Failed(InternalError), exchange, None)
        case Granted(Some(payload)) =>
          var call := Some(StoreCall(userId, payload));
          if storeThrows then Outcome(Failed(InternalError), exchange, call)
          else Outcome(Connected(payload.workspaceName, payload.workspaceId, userId, payload.botId), exchange, call)
  }

  /**
   * The token endpoint recovers the configured client id and secret from
   * the Authorization header of the request the handler sends.
   */
  lemma ExchangeAuthenticatesClient(req: Request, config: ConnectConfig, freshUuid: string, reply: TokenReply, storeThrows: bool)
    requires ConfigComplete(config) && ':' !in config.clientId.value
    requires ReadInput(req, freshUuid).Proceed?
    ensures var o := Handle(req, config, freshUuid, reply, storeThrows);
      o.exchange.Some? && o.exchange.value.grantType == GrantType
      && BasicAuth.ParseHeader(o.exchange.value.authorization) == Some((config.clientId.value, config.clientSecret.value))
  {
    BasicAuth.HeaderRoundTrip(config.clientId.value, config.clientSecret.value);
  }

  /**
   * A successful connection leaves the credential table holding the
   * payload's bot under the returned user id, and the lookup by that user
   * finds it, provided the user had no row for another bot.
   */
  lemma ConnectedThenFound(req: Request, config: ConnectConfig, freshUuid: string, reply: TokenReply,
                           rows: seq<Row>, now: string)
    requires UniqueBots(rows)
    requires Handle(req, config, freshUuid, reply, false).response.Connected?
    requires var r := Handle(req, config, freshUuid, reply, false).response;
      forall x :: x in rows && x.userId == r.userId ==> x.botId == r.botId
    ensures var o := Handle(req, config, freshUuid, reply, false);
      var call := o.store.value;
      var table := Upsert(rows, RowFor(call.userId, call.auth, now));
      ClassifyLookup(SingleByUser(table, o.response.userId)) == Success(Some(RowFor(call.userId, call.auth, now)))
      && RowFor(call.userId, call.auth, now).botId == o.response.botId
  {
    var o := Handle(req, config, freshUuid, reply, false);
    LookupAfterStore(rows, o.store.value.userId, o.store.value.auth, now);
  }
}
