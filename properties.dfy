/** What the grant promises, stated about the reference outcome `Flow` (which
    `CompleteFlow` is proved to produce): which error each input leads to, which
    collaborators are called, which events are emitted, what is saved and in what
    order, and how the validated scopes and the TTLs reach the issued artifacts. */
module GrantProperties {
  import opened Wrappers
  import opened Php
  import opened Scopes
  import opened Entities
  import opened FacebookGrant

  // ---------------------------------------------------------------------------
  // Views of an effect trace

  predicate IsLookup(e: Effect) { e.ClientLookup? }
  predicate IsEmit(e: Effect) { e.Emit? }
  predicate IsSave(e: Effect) { e.Save? }

  /** The entries of `trace` that `keep` selects, in trace order. */
  function Select(trace: seq<Effect>, keep: Effect -> bool): seq<Effect> {
    if trace == [] then []
    else
      var init, last := trace[..|trace| - 1], trace[|trace| - 1];
      assert trace == init + [last];
      Select(init, keep) + (if keep(last) then [last] else [])
  }

  lemma {:induction false} SelectAppend(a: seq<Effect>, b: seq<Effect>, keep: Effect -> bool)
    ensures Select(a + b, keep) == Select(a, keep) + Select(b, keep)
  {
    if b != [] {
      var init, last := b[..|b| - 1], b[|b| - 1];
      assert a + b == (a + init) + [last];
      assert b == init + [last];
      SelectAppend(a, init, keep);
    } else {
      assert a + b == a;
    }
  }

  /** The events emitted, the client lookups and the saves performed, in order. */
  function Emitted(trace: seq<Effect>): seq<Effect> { Select(trace, IsEmit) }
  function Lookups(trace: seq<Effect>): seq<Effect> { Select(trace, IsLookup) }
  function Saved(trace: seq<Effect>): seq<Effect> { Select(trace, IsSave) }

  lemma {:induction false} SelectNone(trace: seq<Effect>, keep: Effect -> bool)
    requires forall e :: e in trace ==> !keep(e)
    ensures Select(trace, keep) == []
  {
    if trace != [] {
      var init := trace[..|trace| - 1];
      assert trace == init + [trace[|trace| - 1]];
      SelectNone(init, keep);
    }
  }

  lemma {:induction false} SelectAll(trace: seq<Effect>, keep: Effect -> bool)
    requires forall e :: e in trace ==> keep(e)
    ensures Select(trace, keep) == trace
  {
    if trace != [] {
      var init := trace[..|trace| - 1];
      assert trace == init + [trace[|trace| - 1]];
      SelectAll(init, keep);
    }
  }

  /** Selecting from `a + b` where `a` holds nothing selected. */
  lemma SelectAfter(a: seq<Effect>, b: seq<Effect>, keep: Effect -> bool)
    requires forall e :: e in a ==> !keep(e)
    ensures Select(a + b, keep) == Select(b, keep)
  {
    SelectAppend(a, b, keep);
    SelectNone(a, keep);
  }

  // ---------------------------------------------------------------------------
  // Client credentials

  /** The client id is the body's `client_id` when the body has one, and the basic-auth
      user otherwise; likewise the secret and the basic-auth password. So the id is
      missing exactly when the body's `client_id` is null, or the body has none and
      there is no basic-auth user. A present body value, even null, takes precedence
      over basic auth. */
  lemma CredentialFallback(req: Request)
    ensures ClientIdParam(req) ==
              if "client_id" in req.body then req.body["client_id"]
              else if req.user.Some? then PStr(req.user.value) else PNull
    ensures ClientSecretParam(req) ==
              if "client_secret" in req.body then req.body["client_secret"]
              else if req.password.Some? then PStr(req.password.value) else PNull
    ensures ClientIdParam(req) == PNull <==>
              if "client_id" in req.body then req.body["client_id"] == PNull else req.user.None?
    ensures ClientSecretParam(req) == PNull <==>
              if "client_secret" in req.body then req.body["client_secret"] == PNull else req.password.None?
  {
  }

  /** A missing client id fails with `InvalidRequest("client_id")`, a missing secret
      with `InvalidRequest("client_secret")`, in that order of checking, and with an
      empty trace: the client store is not queried and nothing is emitted or saved.
      Otherwise the store is queried exactly once, with the grant identifier. */
  lemma MissingClientCredentials(g: Grant, req: Request, env: Env)
    ensures ClientIdParam(req) == PNull ==>
              Flow(g, req, env) == Outcome(Failure(InvalidRequest("client_id")), [])
    ensures ClientIdParam(req) != PNull && ClientSecretParam(req) == PNull ==>
              Flow(g, req, env) == Outcome(Failure(InvalidRequest("client_secret")), [])
    ensures Lookups(Flow(g, req, env).trace) ==
              if ClientIdParam(req) != PNull && ClientSecretParam(req) != PNull
              then [ClientLookup(ClientIdParam(req), ClientSecretParam(req), "facebook")]
              else []
  {
    var o := Flow(g, req, env);
    if ClientIdParam(req) != PNull && ClientSecretParam(req) != PNull {
      var lookup := [ClientLookup(ClientIdParam(req), ClientSecretParam(req), Identifier)];
      var found := g.col.clientStore(ClientIdParam(req), ClientSecretParam(req), Identifier);
      SelectAll(lookup, IsLookup);
      if found.None? {
        SelectAppend(lookup, [Emit(ClientAuthenticationFailed(req))], IsLookup);
        SelectNone([Emit(ClientAuthenticationFailed(req))], IsLookup);
      } else {
        AfterClientExtends(g, req, env, found.value, lookup);
        AfterClientViews(g, req, env, found.value);
        SelectAppend(lookup, AfterClient(g, req, env, found.value, []).trace, IsLookup);
      }
    }
  }

  // ---------------------------------------------------------------------------
  // How far a request gets

  /** Both client credentials are present and the store returns `client` for them. */
  predicate Authenticated(g: Grant, req: Request, client: Client) {
    ClientIdParam(req) != PNull && ClientSecretParam(req) != PNull &&
    g.col.clientStore(ClientIdParam(req), ClientSecretParam(req), Identifier) == Some(client)
  }

  /** The flow reaches the verifier, with client `client` and profile `p`. */
  predicate ReachesVerifier(g: Grant, req: Request, client: Client, p: Option<Profile>) {
    Authenticated(g, req, client) && TokenParam(req) != PNull &&
    ProfileStage(g, TokenParam(req)).0 == Success(p)
  }

  /** The flow reaches scope validation: the verifier returned `userId`, which is not `false`. */
  predicate Verified(g: Grant, req: Request, client: Client, p: Option<Profile>, userId: PhpValue) {
    ReachesVerifier(g, req, client, p) &&
    g.col.verifyCredentials(TokenParam(req), p) == userId && userId != PFalse
  }

  // ---------------------------------------------------------------------------
  // The trace after client authentication

  /** The flow after client authentication appends to the trace so far and does not
      depend on it otherwise. */
  lemma AfterClientExtends(g: Grant, req: Request, env: Env, client: Client, prefix: seq<Effect>)
    ensures var o := AfterClient(g, req, env, client, []);
            AfterClient(g, req, env, client, prefix) == Outcome(o.result, prefix + o.trace)
  {
    var token := TokenParam(req);
    if token != PNull {
      var (profile, fetched) := ProfileStage(g, token);
      assert [] + fetched == fetched;
      if profile.Success? {
        var p := profile.value;
        assert prefix + fetched + [VerifierCall(token, p)] == prefix + (fetched + [VerifierCall(token, p)]);
        assert [] + fetched + [VerifierCall(token, p)] == fetched + [VerifierCall(token, p)];
      }
    }
  }

  /** The views of the trace after client authentication that the other lemmas use. */
  predicate ViewsAfterClient(o: Outcome, req: Request) {
    Lookups(o.trace) == [] &&
    (if o.result.Success? then
       Emitted(o.trace) == [Emit(SessionOwner(SessionOwnerEvent("user", o.result.value.session.ownerId)))]
     else
       Emitted(o.trace) == [] ||
       (Emitted(o.trace) == [Emit(UserAuthenticationFailed(req))] && o.result == Failure(InvalidCredentials))) &&
    (Saved(o.trace) != [] <==> o.result.Success?)
  }

  /** After client authentication: no client lookup happens, the only event that can be
      emitted is one user-authentication failure, and saves happen exactly on success. */
  lemma AfterClientViews(g: Grant, req: Request, env: Env, client: Client)
    ensures ViewsAfterClient(AfterClient(g, req, env, client, []), req)
  {
    var token := TokenParam(req);
    BeforeVerifierOutcome(g, req, env, client, []);
    var o := AfterClient(g, req, env, client, []);
    if token == PNull {
      assert o.trace == [];
    } else if ProfileStage(g, token).0.Failure? {
      var fetched := ProfileStage(g, token).1;
      assert o.trace == [] + fetched;
      UneventfulViews(o, req);
    } else {
      VerifierViews(g, req, env, client, token, ProfileStage(g, token).0.value, ProfileStage(g, token).1);
    }
  }

  /** A missing token fails with `InvalidRequest("token")` and adds nothing to the trace;
      a failed profile fetch fails with its error after the fetch's own effects, which
      are Graph API calls only. */
  lemma BeforeVerifierOutcome(g: Grant, req: Request, env: Env, client: Client, prefix: seq<Effect>)
    ensures TokenParam(req) == PNull ==>
              AfterClient(g, req, env, client, prefix) == Outcome(Failure(InvalidRequest("token")), prefix)
    ensures TokenParam(req) != PNull && ProfileStage(g, TokenParam(req)).0.Failure? ==>
              var (r, fetched) := ProfileStage(g, TokenParam(req));
              AfterClient(g, req, env, client, prefix) == Outcome(Failure(r.error), prefix + fetched)
    ensures TokenParam(req) != PNull ==>
              forall e :: e in ProfileStage(g, TokenParam(req)).1 ==> e.FacebookCall?
  {
  }

  /** The outcome once the verifier has been called with `token` and profile `p`
      (`fetched` being the effects of the profile fetch), by verdict and validation. */
  lemma VerifierOutcome(g: Grant, req: Request, env: Env, client: Client, token: PhpValue,
                        p: Option<Profile>, fetched: seq<Effect>, prefix: seq<Effect>)
    requires token == TokenParam(req) != PNull
    requires ProfileStage(g, token) == (Success(p), fetched)
    ensures var userId := g.col.verifyCredentials(token, p);
            var verified := prefix + fetched + [VerifierCall(token, p)];
            var validated := verified + [ScopeValidation(ScopeParam(req), client)];
            AfterClient(g, req, env, client, prefix) ==
              if userId == PFalse then
                Outcome(Failure(InvalidCredentials), verified + [Emit(UserAuthenticationFailed(req))])
              else match g.col.validateScopes(ScopeParam(req), client)
                case Failure(e) => Outcome(Failure(e), validated)
                case Success(scopes) =>
                  var issued := Issue(g.server, env, userId, client, scopes);
                  Outcome(Success(issued.response), validated + IssueEffects(issued))
  {
  }

  lemma VerifierViews(g: Grant, req: Request, env: Env, client: Client, token: PhpValue, p: Option<Profile>, fetched: seq<Effect>)
    requires token == TokenParam(req) != PNull
    requires ProfileStage(g, token) == (Success(p), fetched)
    ensures ViewsAfterClient(AfterClient(g, req, env, client, []), req)
  {
    VerifierOutcome(g, req, env, client, token, p, fetched, []);
    var verified := [] + fetched + [VerifierCall(token, p)];
    assert forall e :: e in verified ==> !IsEmit(e) && !IsSave(e) && !IsLookup(e);
    var userId := g.col.verifyCredentials(token, p);
    if userId == PFalse {
      RejectedViews(verified, req);
    } else {
      var validated := verified + [ScopeValidation(ScopeParam(req), client)];
      match g.col.validateScopes(ScopeParam(req), client)
      case Failure(e) =>
        UneventfulViews(Outcome(Failure(e), validated), req);
      case Success(scopes) =>
        IssuedViews(validated, g.server, env, userId, client, scopes, req);
    }
  }

  lemma RejectedViews(verified: seq<Effect>, req: Request)
    requires forall e :: e in verified ==> !IsEmit(e) && !IsSave(e) && !IsLookup(e)
    ensures ViewsAfterClient(Outcome(Failure(InvalidCredentials), verified + [Emit(UserAuthenticationFailed(req))]), req)
  {
    var failed := Emit(UserAuthenticationFailed(req));
    var t := verified + [failed];
    assert forall e :: e in t ==> e in verified || e == failed;
    SelectNone(t, IsLookup);
    SelectNone(t, IsSave);
    SelectAfter(verified, [failed], IsEmit);
    SelectAll([failed], IsEmit);
    assert Lookups(t) == [] && Saved(t) == [];
    assert Emitted(t) == [failed];
  }

  lemma UneventfulViews(o: Outcome, req: Request)
    requires o.result.Failure?
    requires forall e :: e in o.trace ==> !IsEmit(e) && !IsSave(e) && !IsLookup(e)
    ensures ViewsAfterClient(o, req)
  {
    SelectNone(o.trace, IsLookup);
    SelectNone(o.trace, IsEmit);
    SelectNone(o.trace, IsSave);
  }

  /** The effects of an issuance are one owner event followed by the saves. */
  lemma IssueEffectsViews(i: Issued)
    ensures forall e :: e in IssueEffects(i) ==> e.Emit? || e.Save?
    ensures Select(IssueEffects(i), IsEmit) == [Emit(SessionOwner(SessionOwnerEvent(i.session.ownerType, i.session.ownerId)))]
    ensures Select(IssueEffects(i), IsSave) == IssueSaves(i)
  {
    var owner := [Emit(SessionOwner(SessionOwnerEvent(i.session.ownerType, i.session.ownerId)))];
    var saves := IssueSaves(i);
    assert forall e :: e in saves ==> e.Save?;
    SelectAppend(owner, saves, IsEmit);
    SelectAll(owner, IsEmit);
    SelectNone(saves, IsEmit);
    SelectAppend(owner, saves, IsSave);
    SelectNone(owner, IsSave);
    SelectAll(saves, IsSave);
  }

  lemma IssuedViews(validated: seq<Effect>, server: Server, env: Env, userId: PhpValue, client: Client, scopes: seq<Scope>, req: Request)
    requires forall e :: e in validated ==> !IsEmit(e) && !IsSave(e) && !IsLookup(e)
    ensures var issued := Issue(server, env, userId, client, scopes);
            ViewsAfterClient(Outcome(Success(issued.response), validated + IssueEffects(issued)), req)
  {
    var issued := Issue(server, env, userId, client, scopes);
    var effects := IssueEffects(issued);
    var t := validated + effects;
    IssueEffectsViews(issued);
    SelectNone(t, IsLookup);
    SelectAfter(validated, effects, IsEmit);
    SelectAfter(validated, effects, IsSave);
  }

  // ---------------------------------------------------------------------------
  // Events and saves over all requests

  /** At most one event is emitted. A client-authentication failure is emitted exactly
      when both credentials are present and the store knows no such client; on success
      the one event is the session's owner event, naming the "user" owner of the issued
      session. Something is saved exactly when the flow succeeds. */
  lemma EventsAndSaves(g: Grant, req: Request, env: Env)
    ensures var o := Flow(g, req, env);
            |Emitted(o.trace)| <= 1 &&
            (Emitted(o.trace) == [Emit(ClientAuthenticationFailed(req))] <==>
               ClientIdParam(req) != PNull && ClientSecretParam(req) != PNull &&
               g.col.clientStore(ClientIdParam(req), ClientSecretParam(req), Identifier).None?) &&
            (o.result.Success? ==>
               Emitted(o.trace) == [Emit(SessionOwner(SessionOwnerEvent("user", o.result.value.session.ownerId)))]) &&
            (Saved(o.trace) != [] <==> o.result.Success?)
  {
    var o := Flow(g, req, env);
    var id, secret := ClientIdParam(req), ClientSecretParam(req);
    if id == PNull || secret == PNull {
      SelectNone(o.trace, IsEmit);
      SelectNone(o.trace, IsSave);
    } else {
      var lookup := [ClientLookup(id, secret, Identifier)];
      match g.col.clientStore(id, secret, Identifier)
      case None =>
        var failed := Emit(ClientAuthenticationFailed(req));
        SelectAfter(lookup, [failed], IsEmit);
        SelectAll([failed], IsEmit);
        SelectNone(o.trace, IsSave);
      case Some(client) =>
        AfterClientExtends(g, req, env, client, lookup);
        AfterClientViews(g, req, env, client);
        var rest := AfterClient(g, req, env, client, []).trace;
        SelectAfter(lookup, rest, IsEmit);
        SelectAfter(lookup, rest, IsSave);
    }
  }

  // ---------------------------------------------------------------------------
  // Client authentication and the token

  /** An unknown client (or one not allowed the `facebook` grant) fails with
      `InvalidClient` after one lookup and one client-authentication-failed event; the
      token is not used, the verifier is not called and nothing is saved. */
  lemma UnknownClient(g: Grant, req: Request, env: Env)
    requires ClientIdParam(req) != PNull && ClientSecretParam(req) != PNull
    requires g.col.clientStore(ClientIdParam(req), ClientSecretParam(req), "facebook").None?
    ensures Flow(g, req, env) ==
              Outcome(Failure(InvalidClient),
                      [ClientLookup(ClientIdParam(req), ClientSecretParam(req), "facebook"),
                       Emit(ClientAuthenticationFailed(req))])
  {
  }

  /** A missing token fails with `InvalidRequest("token")` right after the lookup. */
  lemma MissingToken(g: Grant, req: Request, env: Env, client: Client)
    requires Authenticated(g, req, client) && TokenParam(req) == PNull
    ensures Flow(g, req, env) ==
              Outcome(Failure(InvalidRequest("token")),
                      [ClientLookup(ClientIdParam(req), ClientSecretParam(req), "facebook")])
  {
    BeforeVerifierOutcome(g, req, env, client, [ClientLookup(ClientIdParam(req), ClientSecretParam(req), Identifier)]);
  }

  /** `InvalidRequest("token")` is only ever raised for an authenticated client, and
      never with an event. */
  lemma TokenErrorAfterAuthentication(g: Grant, req: Request, env: Env)
    requires Flow(g, req, env).result == Failure(InvalidRequest("token"))
    ensures exists client :: Authenticated(g, req, client)
    ensures Emitted(Flow(g, req, env).trace) == []
  {
    EventsAndSaves(g, req, env);
    var o := Flow(g, req, env);
    var id, secret := ClientIdParam(req), ClientSecretParam(req);
    assert id != PNull && secret != PNull;
    var client := g.col.clientStore(id, secret, Identifier).value;
    assert Authenticated(g, req, client);
    var rest := AfterClient(g, req, env, client, []);
    AfterClientExtends(g, req, env, client, [ClientLookup(id, secret, Identifier)]);
    AfterClientViews(g, req, env, client);
    SelectAfter([ClientLookup(id, secret, Identifier)], rest.trace, IsEmit);
  }

  // ---------------------------------------------------------------------------
  // The optional profile fetch

  /** The Graph API is called only when `gather_user` is truthy (it is false by default);
      otherwise the verifier receives a null profile. */
  lemma ProfileOnlyWhenGathering(g: Grant, req: Request, env: Env)
    ensures forall e :: e in Flow(g, req, env).trace && e.FacebookCall? ==> Truthy(GetGatherUser(g.config))
    ensures !Truthy(GetGatherUser(g.config)) ==>
              forall e :: e in Flow(g, req, env).trace && e.VerifierCall? ==> e.profile == None
  {
    var id, secret := ClientIdParam(req), ClientSecretParam(req);
    if id != PNull && secret != PNull && g.col.clientStore(id, secret, Identifier).Some? {
      var client := g.col.clientStore(id, secret, Identifier).value;
      var token := TokenParam(req);
      var lookup := [ClientLookup(id, secret, Identifier)];
      BeforeVerifierOutcome(g, req, env, client, lookup);
      if token != PNull && ProfileStage(g, token).0.Success? {
        var (profile, fetched) := ProfileStage(g, token);
        var rest := VerdictTrace(g, req, env, client, token, profile.value, fetched, lookup);
      }
    }
  }

  /** After the verifier call the trace holds only scope validation, events and saves. */
  lemma VerdictTrace(g: Grant, req: Request, env: Env, client: Client, token: PhpValue,
                     p: Option<Profile>, fetched: seq<Effect>, prefix: seq<Effect>) returns (rest: seq<Effect>)
    requires token == TokenParam(req) != PNull
    requires ProfileStage(g, token) == (Success(p), fetched)
    ensures AfterClient(g, req, env, client, prefix).trace == prefix + fetched + [VerifierCall(token, p)] + rest
    ensures forall e :: e in rest ==> e.ScopeValidation? || e.Emit? || e.Save?
  {
    VerifierOutcome(g, req, env, client, token, p, fetched, prefix);
    var userId := g.col.verifyCredentials(token, p);
    if userId == PFalse {
      rest := [Emit(UserAuthenticationFailed(req))];
    } else {
      match g.col.validateScopes(ScopeParam(req), client)
      case Failure(_) =>
        rest := [ScopeValidation(ScopeParam(req), client)];
      case Success(scopes) =>
        var issued := Issue(g.server, env, userId, client, scopes);
        IssueEffectsViews(issued);
        rest := [ScopeValidation(ScopeParam(req), client)] + IssueEffects(issued);
    }
  }

  /** With `gather_user` on and both app settings set, the Graph API is called right
      after the client lookup with the app id, the app secret and the token, and the
      profile it returns is handed to the verifier next. */
  lemma ProfileFetchedWhenGathering(g: Grant, req: Request, env: Env, client: Client, p: Profile)
    requires Authenticated(g, req, client) && TokenParam(req) != PNull
    requires Truthy(GetGatherUser(g.config))
    requires GetClientId(g.config).Success? && GetClientSecret(g.config).Success?
    requires g.col.facebook(GetClientId(g.config).value, GetClientSecret(g.config).value, TokenParam(req)) == Success(p)
    ensures var token := TokenParam(req);
            var trace := Flow(g, req, env).trace;
            |trace| >= 3 &&
            trace[..3] == [ClientLookup(ClientIdParam(req), ClientSecretParam(req), "facebook"),
                           FacebookCall(GetClientId(g.config).value, GetClientSecret(g.config).value, token),
                           VerifierCall(token, Some(p))]
  {
    var token := TokenParam(req);
    var lookup := [ClientLookup(ClientIdParam(req), ClientSecretParam(req), Identifier)];
    var fetched := [FacebookCall(GetClientId(g.config).value, GetClientSecret(g.config).value, token)];
    assert ProfileStage(g, token) == (Success(Some(p)), fetched);
    var rest := VerdictTrace(g, req, env, client, token, Some(p), fetched, lookup);
    var verified := lookup + fetched + [VerifierCall(token, Some(p))];
    assert Flow(g, req, env).trace == verified + rest;
    assert (verified + rest)[..3] == verified;
  }

  /** With `gather_user` on, an unset app id or app secret aborts the flow with
      `NotSet` right after the client lookup: no Graph API call, no verifier call,
      nothing saved. The app id is checked first. */
  lemma MissingFacebookSetting(g: Grant, req: Request, env: Env, client: Client)
    requires Authenticated(g, req, client) && TokenParam(req) != PNull
    requires Truthy(GetGatherUser(g.config))
    requires GetClientId(g.config).Failure? || GetClientSecret(g.config).Failure?
    ensures Flow(g, req, env) ==
              Outcome(Failure(if GetClientId(g.config).Failure? then NotSet("client_id") else NotSet("client_secret")),
                      [ClientLookup(ClientIdParam(req), ClientSecretParam(req), "facebook")])
  {
    var lookup := [ClientLookup(ClientIdParam(req), ClientSecretParam(req), Identifier)];
    BeforeVerifierOutcome(g, req, env, client, lookup);
    assert lookup + [] == lookup;
  }

  // ---------------------------------------------------------------------------
  // The verifier's verdict

  /** Only a verdict identical to `false` rejects: the flow fails with
      `InvalidCredentials`, emits one user-authentication-failed event and saves nothing. */
  lemma RejectedCredentials(g: Grant, req: Request, env: Env, client: Client, p: Option<Profile>)
    requires ReachesVerifier(g, req, client, p)
    requires g.col.verifyCredentials(TokenParam(req), p) == PFalse
    ensures Flow(g, req, env).result == Failure(InvalidCredentials)
    ensures Emitted(Flow(g, req, env).trace) == [Emit(UserAuthenticationFailed(req))]
    ensures Saved(Flow(g, req, env).trace) == []
  {
    var token := TokenParam(req);
    var lookup := [ClientLookup(ClientIdParam(req), ClientSecretParam(req), Identifier)];
    var fetched := ProfileStage(g, token).1;
    BeforeVerifierOutcome(g, req, env, client, []);
    VerifierOutcome(g, req, env, client, token, p, fetched, lookup);
    var verified := lookup + fetched + [VerifierCall(token, p)];
    var failed := [Emit(UserAuthenticationFailed(req))];
    assert Flow(g, req, env).trace == verified + failed;
    assert forall e :: e in verified ==> !IsEmit(e) && !IsSave(e);
    SelectAfter(verified, failed, IsEmit);
    SelectAll(failed, IsEmit);
    SelectAfter(verified, failed, IsSave);
    SelectNone(failed, IsSave);
  }


  // ---------------------------------------------------------------------------
  // Scope validation, issuance and saves

  /** The outcome of a flow that gets through validation with `scopes`: the issued
      response, the issued artifacts saved in order, and the session's owner event as
      the only event. */
  lemma SuccessOutcome(g: Grant, req: Request, env: Env, client: Client, p: Option<Profile>, userId: PhpValue, scopes: seq<Scope>)
    requires Verified(g, req, client, p, userId)
    requires g.col.validateScopes(ScopeParam(req), client) == Success(scopes)
    ensures var issued := Issue(g.server, env, userId, client, scopes);
            Flow(g, req, env).result == Success(issued.response) &&
            Saved(Flow(g, req, env).trace) == IssueSaves(issued) &&
            Emitted(Flow(g, req, env).trace) == [Emit(SessionOwner(SessionOwnerEvent("user", userId)))]
  {
    var token := TokenParam(req);
    var lookup := [ClientLookup(ClientIdParam(req), ClientSecretParam(req), Identifier)];
    var fetched := ProfileStage(g, token).1;
    VerifierOutcome(g, req, env, client, token, p, fetched, lookup);
    BeforeVerifierOutcome(g, req, env, client, []);
    var issued := Issue(g.server, env, userId, client, scopes);
    var validated := lookup + fetched + [VerifierCall(token, p)] + [ScopeValidation(ScopeParam(req), client)];
    assert forall e :: e in validated ==> !IsSave(e);
    IssueEffectsViews(issued);
    SelectAfter(validated, IssueEffects(issued), IsSave);
    EventsAndSaves(g, req, env);
  }

  /** A failed scope validation fails the flow with the validator's error, with no
      event and nothing saved. */
  lemma RejectedScopes(g: Grant, req: Request, env: Env, client: Client, p: Option<Profile>, userId: PhpValue, e: Error)
    requires Verified(g, req, client, p, userId)
    requires g.col.validateScopes(ScopeParam(req), client) == Failure(e)
    ensures Flow(g, req, env).result == Failure(e)
    ensures Emitted(Flow(g, req, env).trace) == [] && Saved(Flow(g, req, env).trace) == []
  {
    var token := TokenParam(req);
    var lookup := [ClientLookup(ClientIdParam(req), ClientSecretParam(req), Identifier)];
    var fetched := ProfileStage(g, token).1;
    BeforeVerifierOutcome(g, req, env, client, []);
    VerifierOutcome(g, req, env, client, token, p, fetched, lookup);
    var t := lookup + fetched + [VerifierCall(token, p)] + [ScopeValidation(ScopeParam(req), client)];
    assert Flow(g, req, env).trace == t;
    assert forall e :: e in t ==> !IsEmit(e) && !IsSave(e);
    SelectNone(t, IsEmit);
    SelectNone(t, IsSave);
  }


  /** On success every verdict other than `false` (0, null and "" included) owns the
      session, which belongs to the authenticated client and holds the validated scopes
      keyed by id: every validated scope's id, only validated scopes, and exactly the
      validated scopes when their ids are distinct. The access token carries exactly the
      session's scopes, expires `accessTokenTTL` after the first clock reading, and the
      response reports its id and `expires_in` = `accessTokenTTL`. */
  lemma IssuedSessionAndAccessToken(g: Grant, req: Request, env: Env, client: Client, p: Option<Profile>, userId: PhpValue, scopes: seq<Scope>)
    requires Verified(g, req, client, p, userId)
    requires g.col.validateScopes(ScopeParam(req), client) == Success(scopes)
    ensures Flow(g, req, env).result.Success?
    ensures var response := Flow(g, req, env).result.value;
            var session := response.session;
            session.ownerType == "user" && session.ownerId == userId && session.client == Some(client) &&
            (forall s :: s in scopes ==> HasId(session.scopes, s.id)) &&
            (forall x :: x in session.scopes ==> x in scopes) &&
            UniqueIds(session.scopes) &&
            (UniqueIds(scopes) ==> session.scopes == scopes) &&
            response.params["access_token"] == PStr(env.accessTokenId) &&
            response.params["expires_in"] == PInt(g.server.accessTokenTTL) &&
            |Saved(Flow(g, req, env).trace)| >= 2 &&
            Saved(Flow(g, req, env).trace)[..2] ==
              [Save(SessionArtifact(session)),
               Save(AccessTokenArtifact(AccessTokenRecord(env.accessTokenId, env.accessTime + g.server.accessTokenTTL, session.scopes), session))]
  {
    SuccessOutcome(g, req, env, client, p, userId, scopes);
    var issued := Issue(g.server, env, userId, client, scopes);
    assert Flow(g, req, env).result.value == issued.response;
    assert Saved(Flow(g, req, env).trace) == IssueSaves(issued);
    IssuedScopes(scopes);
  }

  /** The collection built from the validated scopes holds every validated scope's id,
      only validated scopes, and exactly the validated scopes when their ids are distinct. */
  lemma IssuedScopes(scopes: seq<Scope>)
    ensures forall s :: s in scopes ==> HasId(Collect(scopes), s.id)
    ensures forall x :: x in Collect(scopes) ==> x in scopes
    ensures UniqueIds(scopes) ==> Collect(scopes) == scopes
  {
    forall s | s in scopes ensures HasId(Collect(scopes), s.id) {
      var i :| 0 <= i < |scopes| && scopes[i] == s;
      assert HasId(scopes, s.id);
    }
    if UniqueIds(scopes) {
      CollectOfUnique(scopes);
    }
  }

  /** A refresh token is issued exactly when a `refresh_token` grant is registered: it
      then expires `refreshTokenTTL` after the second clock reading, its id is the
      response's `refresh_token`, and it is saved last, linked to the access token. The
      saves are session, access token (linked to the session), refresh token. */
  lemma RefreshTokenOnlyWithRefreshGrant(g: Grant, req: Request, env: Env, client: Client, p: Option<Profile>, userId: PhpValue, scopes: seq<Scope>)
    requires Verified(g, req, client, p, userId)
    requires g.col.validateScopes(ScopeParam(req), client) == Success(scopes)
    ensures Flow(g, req, env).result.Success?
    ensures var response := Flow(g, req, env).result.value;
            var session := response.session;
            var accessToken := AccessTokenRecord(env.accessTokenId, env.accessTime + g.server.accessTokenTTL, session.scopes);
            ("refresh_token" in response.params <==> g.server.refreshTokenTTL.Some?) &&
            Saved(Flow(g, req, env).trace) ==
              [Save(SessionArtifact(session)), Save(AccessTokenArtifact(accessToken, session))] +
              match g.server.refreshTokenTTL
              case None => []
              case Some(ttl) =>
                [Save(RefreshTokenArtifact(RefreshTokenRecord(env.refreshTokenId, env.refreshTime + ttl), accessToken.id))]
    ensures g.server.refreshTokenTTL.Some? ==>
              Flow(g, req, env).result.value.params["refresh_token"] == PStr(env.refreshTokenId)
  {
    SuccessOutcome(g, req, env, client, p, userId, scopes);
  }
}
