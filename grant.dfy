/** The `facebook` grant: a password-style OAuth2 grant in which the caller presents
    a Facebook access token instead of a username and password. `CompleteFlow`
    authenticates the client, optionally fetches the Facebook profile, asks a
    pluggable callback to map the token to a local user, validates the requested
    scopes and issues a session, an access token and, when the server has a
    refresh-token grant, a refresh token.

    Everything the grant reaches outside itself is an input: the request, the
    configuration, the server settings, the collaborators (client store, Facebook
    SDK call, verify-credentials callback, scope validator), and the generated ids
    and clock readings. Each call the grant makes to a collaborator, each event it
    emits and each save it performs is recorded, in order, in an effect trace. */
module FacebookGrant {
  import opened Wrappers
  import opened Php
  import opened Scopes
  import opened Entities

  /** The grant identifier: the `grant_type` the server routes here, and the grant
      the client store checks the client is allowed to use. */
  const Identifier: string := "facebook"

  /** The incoming request: its body parameters and its basic-auth user and password. */
  datatype Request = Request(body: map<string, PhpValue>, user: Option<string>, password: Option<string>)

  /** The configuration keys under `oauth.grant_types.facebook`; `None` is an absent key. */
  datatype Config = Config(gatherUser: Option<PhpValue>, clientId: Option<PhpValue>, clientSecret: Option<PhpValue>)

  /** The authorization server's settings the grant reads: the access token TTL, and
      `Some(ttl)` with the refresh grant's token TTL when a `refresh_token` grant is
      registered, `None` otherwise. */
  datatype Server = Server(accessTokenTTL: int, refreshTokenTTL: Option<int>)

  /** The Facebook Graph API response to `/me?fields=id`, opaque to the grant. */
  datatype Profile = Profile(graphResponse: string)

  datatype Error =
    | InvalidRequest(parameter: string)
    | InvalidClient
    | InvalidCredentials
    | InvalidScope(scope: string)
    | NotSet(setting: string)          // the "[setting] is not set." argument error
    | FacebookFailure(message: string)  // an exception raised by the Facebook SDK

  /** The collaborators, as functions of the arguments the grant passes them. */
  datatype Collaborators = Collaborators(
    clientStore: (PhpValue, PhpValue, string) -> Option<Client>,      // (client id, client secret, grant)
    facebook: (PhpValue, PhpValue, PhpValue) -> Result<Profile, string>, // (app id, app secret, token); SDK error message
    verifyCredentials: (PhpValue, Option<Profile>) -> PhpValue,        // (token, profile or null)
    validateScopes: (PhpValue, Client) -> Result<seq<Scope>, Error>)  // (scope parameter, client)

  datatype Grant = Grant(config: Config, server: Server, col: Collaborators)

  /** The two generated secure keys and the two clock readings, in the order the
      grant takes them: access token id and time, then refresh token id and time. */
  datatype Env = Env(accessTokenId: string, accessTime: int, refreshTokenId: string, refreshTime: int)

  datatype Event =
    | ClientAuthenticationFailed(request: Request)
    | UserAuthenticationFailed(request: Request)
    | SessionOwner(owner: SessionOwnerEvent)  // emitted by the session when its owner is set

  datatype Artifact =
    | SessionArtifact(session: SessionRecord)
    | AccessTokenArtifact(accessToken: AccessTokenRecord, session: SessionRecord)  // with the linked session
    | RefreshTokenArtifact(refreshToken: RefreshTokenRecord, accessTokenId: string) // with the linked token's id

  datatype Effect =
    | ClientLookup(clientId: PhpValue, clientSecret: PhpValue, grant: string)
    | FacebookCall(appId: PhpValue, appSecret: PhpValue, token: PhpValue)
    | VerifierCall(token: PhpValue, profile: Option<Profile>)
    | ScopeValidation(scopeParam: PhpValue, client: Client)
    | Emit(event: Event)
    | Save(artifact: Artifact)

  /** What the token type holds when the response is generated: the session and the
      response parameters (`access_token`, `expires_in`, optionally `refresh_token`). */
  datatype TokenResponse = TokenResponse(session: SessionRecord, params: map<string, PhpValue>)

  datatype Outcome = Outcome(result: Result<TokenResponse, Error>, trace: seq<Effect>)

  // ---------------------------------------------------------------------------
  // Configuration getters

  /** `getGatherUser()`: the `gather_user` setting, `false` when absent. */
  function GetGatherUser(c: Config): (v: PhpValue)
    ensures c.gatherUser.None? ==> !Truthy(v)
    ensures c.gatherUser.Some? ==> v == c.gatherUser.value
  {
    ConfigGet(c.gatherUser, PFalse)
  }

  /** A setting that must be set: absent (read as null) or loosely equal to null fails
      with `NotSet(name)`. */
  function RequiredSetting(entry: Option<PhpValue>, name: string): (r: Result<PhpValue, Error>)
    ensures r.Success? <==> entry.Some? && !LooselyNull(entry.value)
    ensures r.Success? ==> r.value == entry.value
    ensures r.Failure? ==> r.error == NotSet(name)
  {
    var v := ConfigGet(entry, PNull);
    if LooselyNull(v) then Failure(NotSet(name)) else Success(v)
  }

  /** `getClientId()`: the Facebook app id. */
  function GetClientId(c: Config): (r: Result<PhpValue, Error>)
    ensures r.Success? <==> c.clientId.Some? && !LooselyNull(c.clientId.value)
    ensures r.Success? ==> r.value == c.clientId.value
    ensures r.Failure? ==> r.error == NotSet("client_id")
  {
    RequiredSetting(c.clientId, "client_id")
  }

  /** `getClientSecret()`: the Facebook app secret. */
  function GetClientSecret(c: Config): (r: Result<PhpValue, Error>)
    ensures r.Success? <==> c.clientSecret.Some? && !LooselyNull(c.clientSecret.value)
    ensures r.Success? ==> r.value == c.clientSecret.value
    ensures r.Failure? ==> r.error == NotSet("client_secret")
  {
    RequiredSetting(c.clientSecret, "client_secret")
  }

  // ---------------------------------------------------------------------------
  // Request parameters

  function BasicUser(req: Request): PhpValue {
    match req.user
    case Some(u) => PStr(u)
    case None => PNull
  }

  function BasicPassword(req: Request): PhpValue {
    match req.password
    case Some(p) => PStr(p)
    case None => PNull
  }

  /** The client id: the body's `client_id`, or the basic-auth user when the body has none. */
  function ClientIdParam(req: Request): PhpValue {
    BagGet(req.body, "client_id", BasicUser(req))
  }

  /** The client secret: the body's `client_secret`, or the basic-auth password. */
  function ClientSecretParam(req: Request): PhpValue {
    BagGet(req.body, "client_secret", BasicPassword(req))
  }

  function TokenParam(req: Request): PhpValue {
    BagGet(req.body, "token", PNull)
  }

  function ScopeParam(req: Request): PhpValue {
    BagGet(req.body, "scope", PStr(""))
  }

  // ---------------------------------------------------------------------------
  // The flow, as a function of its inputs

  /** `gatherUser($token)`: read the app id, then the app secret, then call the
      Graph API with them and the token. A missing setting fails before any call. */
  function GatherUser(g: Grant, token: PhpValue): (r: (Result<Profile, Error>, seq<Effect>))
    ensures r.1 != [] <==> GetClientId(g.config).Success? && GetClientSecret(g.config).Success?
    ensures r.1 != [] ==>
      var appId, appSecret := GetClientId(g.config).value, GetClientSecret(g.config).value;
      r.1 == [FacebookCall(appId, appSecret, token)] &&
      r.0 == match g.col.facebook(appId, appSecret, token)
             case Success(p) => Success(p)
             case Failure(m) => Failure(FacebookFailure(m))
    ensures GetClientId(g.config).Failure? ==> r.0 == Failure(NotSet("client_id"))
    ensures GetClientId(g.config).Success? && GetClientSecret(g.config).Failure? ==> r.0 == Failure(NotSet("client_secret"))
  {
    match GetClientId(g.config)
    case Failure(e) => (Failure(e), [])
    case Success(appId) =>
      match GetClientSecret(g.config)
      case Failure(e) => (Failure(e), [])
      case Success(appSecret) =>
        var effects := [FacebookCall(appId, appSecret, token)];
        match g.col.facebook(appId, appSecret, token)
        case Success(p) => (Success(p), effects)
        case Failure(message) => (Failure(FacebookFailure(message)), effects)
  }

  /** The profile handed to the verifier: fetched only when `gather_user` is truthy,
      null otherwise. */
  function ProfileStage(g: Grant, token: PhpValue): (r: (Result<Option<Profile>, Error>, seq<Effect>))
    ensures !Truthy(GetGatherUser(g.config)) ==> r == (Success(None), [])
    ensures r.0.Success? && r.0.value.Some? ==> Truthy(GetGatherUser(g.config)) && r.1 != []
    ensures Truthy(GetGatherUser(g.config)) ==>
              r == ((match GatherUser(g, token).0
                     case Success(p) => Success(Some(p))
                     case Failure(e) => Failure(e)), GatherUser(g, token).1)
  {
    if Truthy(GetGatherUser(g.config)) then
      var (fetched, effects) := GatherUser(g, token);
      match fetched
      case Failure(e) => (Failure(e), effects)
      case Success(p) => (Success(Some(p)), effects)
    else
      (Success(None), [])
  }

  /** The session, tokens and response a successful flow issues. */
  datatype Issued = Issued(session: SessionRecord, accessToken: AccessTokenRecord,
                           refreshToken: Option<RefreshTokenRecord>, response: TokenResponse)

  /** Issuance for owner `userId`, client `client` and validated scopes `scopes`:
      the session holds the validated scopes keyed by id, the access token a copy of
      the session's scopes, and a refresh token exists only under a refresh grant. */
  function Issue(server: Server, env: Env, userId: PhpValue, client: Client, scopes: seq<Scope>): Issued {
    var session := SessionRecord("user", userId, Some(client), Collect(scopes));
    var accessToken := AccessTokenRecord(env.accessTokenId, server.accessTokenTTL + env.accessTime, session.scopes);
    var params := map["access_token" := PStr(accessToken.id), "expires_in" := PInt(server.accessTokenTTL)];
    match server.refreshTokenTTL
    case None =>
      Issued(session, accessToken, None, TokenResponse(session, params))
    case Some(ttl) =>
      var refreshToken := RefreshTokenRecord(env.refreshTokenId, ttl + env.refreshTime);
      Issued(session, accessToken, Some(refreshToken), TokenResponse(session, params["refresh_token" := PStr(refreshToken.id)]))
  }

  /** The saves of an issuance, in order: session, access token, refresh token. */
  function IssueSaves(i: Issued): seq<Effect> {
    [Save(SessionArtifact(i.session)), Save(AccessTokenArtifact(i.accessToken, i.session))] +
    (match i.refreshToken
     case None => []
     case Some(r) => [Save(RefreshTokenArtifact(r, i.accessToken.id))])
  }

  /** The effects of an issuance, in order: the session's `session.owner` event, then
      the saves. */
  function IssueEffects(i: Issued): seq<Effect> {
    [Emit(SessionOwner(SessionOwnerEvent(i.session.ownerType, i.session.ownerId)))] + IssueSaves(i)
  }

  /** The reference outcome of `completeFlow`: its result and its effect trace. */
  function Flow(g: Grant, req: Request, env: Env): Outcome {
    var clientId := ClientIdParam(req);
    if clientId == PNull then Outcome(Failure(InvalidRequest("client_id")), [])
    else
      var clientSecret := ClientSecretParam(req);
      if clientSecret == PNull then Outcome(Failure(InvalidRequest("client_secret")), [])
      else
        var lookup := [ClientLookup(clientId, clientSecret, Identifier)];
        match g.col.clientStore(clientId, clientSecret, Identifier)
        case None => Outcome(Failure(InvalidClient), lookup + [Emit(ClientAuthenticationFailed(req))])
        case Some(client) => AfterClient(g, req, env, client, lookup)
  }

  /** The flow once the client `client` is authenticated, `trace` being the effects so far. */
  function AfterClient(g: Grant, req: Request, env: Env, client: Client, trace: seq<Effect>): Outcome {
    var token := TokenParam(req);
    if token == PNull then Outcome(Failure(InvalidRequest("token")), trace)
    else
      var (profile, fetched) := ProfileStage(g, token);
      match profile
      case Failure(e) => Outcome(Failure(e), trace + fetched)
      case Success(p) =>
        var verified := trace + fetched + [VerifierCall(token, p)];
        var userId := g.col.verifyCredentials(token, p);
        if userId == PFalse then
          Outcome(Failure(InvalidCredentials), verified + [Emit(UserAuthenticationFailed(req))])
        else
          var scopeParam := ScopeParam(req);
          var validated := verified + [ScopeValidation(scopeParam, client)];
          match g.col.validateScopes(scopeParam, client)
          case Failure(e) => Outcome(Failure(e), validated)
          case Success(scopes) =>
            var issued := Issue(g.server, env, userId, client, scopes);
            Outcome(Success(issued.response), validated + IssueEffects(issued))
  }

  // ---------------------------------------------------------------------------
  // The flow, step by step

  /** `completeFlow()`: runs the stages in order, stops at the first failure, and
      builds the session and tokens as objects whose scope collections are filled
      one scope at a time. */
  method CompleteFlow(g: Grant, req: Request, env: Env) returns (result: Result<TokenResponse, Error>, trace: seq<Effect>)
    ensures Outcome(result, trace) == Flow(g, req, env)
  {
    trace := [];
    var clientId := BagGet(req.body, "client_id", BasicUser(req));
    if clientId == PNull {
      return Failure(InvalidRequest("client_id")), trace;
    }
    var clientSecret := BagGet(req.body, "client_secret", BasicPassword(req));
    if clientSecret == PNull {
      return Failure(InvalidRequest("client_secret")), trace;
    }

    var found := g.col.clientStore(clientId, clientSecret, Identifier);
    trace := trace + [ClientLookup(clientId, clientSecret, Identifier)];
    if found.None? {
      trace := trace + [Emit(ClientAuthenticationFailed(req))];
      return Failure(InvalidClient), trace;
    }
    result, trace := CompleteAfterClient(g, req, env, found.value, trace);
  }

  /** The rest of `completeFlow()` once `client` is authenticated, `trace0` being the
      effects so far: the token check, the profile fetch, the verdict, scope validation
      and issuance. */
  method CompleteAfterClient(g: Grant, req: Request, env: Env, client: Client, trace0: seq<Effect>)
    returns (result: Result<TokenResponse, Error>, trace: seq<Effect>)
    ensures Outcome(result, trace) == AfterClient(g, req, env, client, trace0)
  {
    trace := trace0;
    var token := BagGet(req.body, "token", PNull);
    if token == PNull {
      return Failure(InvalidRequest("token")), trace;
    }

    var profile: Option<Profile> := None;
    if Truthy(GetGatherUser(g.config)) {
      var (fetched, effects) := GatherUser(g, token);
      trace := trace + effects;
      if fetched.Failure? {
        return Failure(fetched.error), trace;
      }
      profile := Some(fetched.value);
    }

    var userId := g.col.verifyCredentials(token, profile);
    trace := trace + [VerifierCall(token, profile)];
    if userId == PFalse {
      trace := trace + [Emit(UserAuthenticationFailed(req))];
      return Failure(InvalidCredentials), trace;
    }

    var scopeParam := BagGet(req.body, "scope", PStr(""));
    var validation := g.col.validateScopes(scopeParam, client);
    trace := trace + [ScopeValidation(scopeParam, client)];
    if validation.Failure? {
      return Failure(validation.error), trace;
    }
    var scopes := validation.value;

    var issued, effects := IssueArtifacts(g.server, env, userId, client, scopes);
    trace := trace + effects;
    result := Success(issued);
  }

  /** Issuance, lines 83-122 of the grant: build the session (emitting its owner event)
      and the access token, associate the validated scopes with the session and then
      the session's scopes with the access token, set the response parameters, create
      a refresh token under a refresh grant, and save the artifacts. Returns the
      response and the effects: the owner event, then the saves. */
  method IssueArtifacts(server: Server, env: Env, userId: PhpValue, client: Client, scopes: seq<Scope>)
    returns (response: TokenResponse, effects: seq<Effect>)
    ensures response == Issue(server, env, userId, client, scopes).response
    ensures effects == IssueEffects(Issue(server, env, userId, client, scopes))
  {
    var session, ownerEvent := NewSession(userId, client, scopes);
    effects := [Emit(SessionOwner(ownerEvent))];
    var accessToken := NewAccessToken(env.accessTokenId, server.accessTokenTTL + env.accessTime, session);
    ghost var issued := Issue(server, env, userId, client, scopes);
    assert session.Record() == issued.session;
    assert accessToken.Record() == issued.accessToken;

    var params := map["access_token" := PStr(accessToken.id), "expires_in" := PInt(server.accessTokenTTL)];

    var refreshToken: RefreshToken? := null;
    if server.refreshTokenTTL.Some? {
      refreshToken := new RefreshToken();
      refreshToken.SetId(env.refreshTokenId);
      refreshToken.SetExpireTime(server.refreshTokenTTL.value + env.refreshTime);
      params := params["refresh_token" := PStr(refreshToken.id)];
    }
    assert issued.response == TokenResponse(issued.session, params);
    assert server.refreshTokenTTL.Some? <==> refreshToken != null;

    ghost var expected := IssueEffects(issued);
    effects := effects + [Save(SessionArtifact(session.Record()))];
    accessToken.SetSession(session);
    effects := effects + [Save(AccessTokenArtifact(accessToken.Record(), accessToken.session.Record()))];
    assert effects == expected[..3];
    if server.refreshTokenTTL.Some? {
      refreshToken.SetAccessToken(accessToken);
      effects := effects + [Save(RefreshTokenArtifact(refreshToken.Record(), refreshToken.accessToken.id))];
      assert effects == expected;
    }
    assert session.Record() == issued.session;

    response := TokenResponse(session.Record(), params);
  }

  /** Lines 84-86 and 94-96 of the grant: a new session owned by "user" `userId`, tied
      to `client` and holding the validated scopes, and the owner event it emits. */
  method NewSession(userId: PhpValue, client: Client, scopes: seq<Scope>) returns (session: Session, event: SessionOwnerEvent)
    ensures fresh(session) && session.Valid()
    ensures session.Record() == SessionRecord("user", userId, Some(client), Collect(scopes))
    ensures event == SessionOwnerEvent("user", userId)
  {
    session := new Session();
    event := session.SetOwner("user", userId);
    session.AssociateClient(client);
    AssociateScopes(session, scopes);
  }

  /** Lines 89-91 and 98-100 of the grant: a new access token with id `id`, expiring at
      `expireTime`, holding exactly the session's scopes and not yet linked to it. */
  method NewAccessToken(id: string, expireTime: int, session: Session) returns (accessToken: AccessToken)
    requires session.Valid()
    ensures fresh(accessToken) && accessToken.session == null
    ensures accessToken.Record() == AccessTokenRecord(id, expireTime, session.scopes)
  {
    accessToken := new AccessToken();
    accessToken.SetId(id);
    accessToken.SetExpireTime(expireTime);
    CopySessionScopes(session, accessToken);
  }

  /** Lines 94-96 of the grant: associate each validated scope with the new session. */
  method AssociateScopes(session: Session, scopes: seq<Scope>)
    requires session.Valid() && session.scopes == []
    modifies session
    ensures session.Valid()
    ensures session.Record() == old(session.Record()).(scopes := Collect(scopes))
  {
    var i := 0;
    while i < |scopes|
      invariant 0 <= i <= |scopes|
      invariant session.Valid()
      invariant session.Record() == old(session.Record()).(scopes := Collect(scopes[..i]))
    {
      assert scopes[..i + 1][..i] == scopes[..i];
      assert Collect(scopes[..i + 1]) == Associate(Collect(scopes[..i]), scopes[i]);
      session.AssociateScope(scopes[i]);
      i := i + 1;
    }
    assert scopes[..|scopes|] == scopes;
  }

  /** Lines 98-100 of the grant: associate each of the session's scopes with the new
      access token, which then holds exactly the session's scopes. */
  method CopySessionScopes(session: Session, accessToken: AccessToken)
    requires session.Valid()
    requires accessToken.Valid() && accessToken.scopes == []
    modifies accessToken
    ensures accessToken.Valid() && accessToken.session == old(accessToken.session)
    ensures accessToken.Record() == old(accessToken.Record()).(scopes := session.scopes)
  {
    var sessionScopes := session.scopes;
    var i := 0;
    while i < |sessionScopes|
      invariant 0 <= i <= |sessionScopes|
      invariant accessToken.Valid() && accessToken.session == old(accessToken.session)
      invariant accessToken.Record() == old(accessToken.Record()).(scopes := Collect(sessionScopes[..i]))
    {
      assert sessionScopes[..i + 1][..i] == sessionScopes[..i];
      assert Collect(sessionScopes[..i + 1]) == Associate(Collect(sessionScopes[..i]), sessionScopes[i]);
      accessToken.AssociateScope(sessionScopes[i]);
      i := i + 1;
    }
    assert sessionScopes[..|sessionScopes|] == sessionScopes;
    CollectOfUnique(sessionScopes);
  }
}
