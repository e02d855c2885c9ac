# Facebook grant for the League OAuth 2.0 server

This project models the `facebook` grant type of larapack/facebook-grant. The grant is
an OAuth 2.0 password-style grant. A client sends its credentials together with a
Facebook access token. The grant then does the following, in order:

1. It authenticates the client against the client store.
2. It optionally fetches the caller's Facebook profile.
3. It asks an application callback to turn the token and the profile into a user id.
4. It validates the requested scopes.
5. It issues a session, an access token and, when the server also offers the
   `refresh_token` grant, a refresh token.

The model has these parts:

- `Php` holds the PHP values the grant inspects. These are null, booleans, integers and
  strings. The module gives PHP truthiness and the loose `== null` test. The two
  differ on the string `"0"`, which is falsy but not loosely null. It also gives the body-parameter lookup: a key that is present is returned even
  when its value is null. A key that is absent falls back to the default.
- `Scopes` models a League scope collection. It is keyed by scope id, and the first
  scope associated under an id wins.
- `Entities` holds the session, access-token and refresh-token entities. Each is a class
  whose setters update its fields in place.
- `FacebookGrant` holds the following:
  - the configuration getters;
  - `gatherUser`;
  - `Flow`, a pure reference definition of `completeFlow`. Its result is a success or
    an OAuth error, and its trace lists, in order, the observable effects: the client
    lookup, the Facebook call, the verifier call, scope validation, emitted events
    (the authentication failures and the session's `session.owner` event) and saves;
  - `CompleteFlow`, the imperative method. It is proved equal to `Flow`.
- `GrantProperties` holds lemmas about `Flow`. They cover each error path, the events
  emitted, what is saved and in which order, and the contents of the issued session
  and tokens.

Behaviour of the code worth noting:

- The Facebook app id and secret are checked only when a profile is gathered, and only
  during a request. A missing setting is not a start-up error.
- A setting counts as unset when it is loosely null. So `""`, `0` and `false` count as
  unset, while `"0"` is accepted and passed on.
- A `client_id` or `client_secret` body parameter that is present with value null does
  not fall back to HTTP basic authentication. The request fails.
- A `token` sent with value null fails in the same way as a missing one.
- Only a strict `false` from the verifier callback rejects the user. Any other value,
  null included, becomes the session owner.
- Scopes are merged by id, and the first one associated wins. This is not a set union of
  scope values.
- The access-token and refresh-token expiry times use two separate clock readings.

## Model

| member | source | states |
|---|---|---|
| Scopes.Associate | src/Larapack/FacebookGrant.php:95 | associating a scope leaves a collection that holds that scope's id and otherwise only the earlier ids; the earlier scopes keep their place; ids stay unique; a scope whose id is already present changes nothing |
| Scopes.Collect | src/Larapack/FacebookGrant.php:94-96 | associating a list of scopes one by one gives a collection with unique ids, exactly the ids of the list, only scopes from the list, and no more entries than the list |
| Scopes.CollectOfUnique | src/Larapack/FacebookGrant.php:98-100 | associating the scopes of a collection whose ids are already unique reproduces that collection exactly |
| Scopes.CollectIdempotent | src/Larapack/FacebookGrant.php:94-100 | copying the session's collected scopes onto the access token gives the same collection again |
| Entities.Session.constructor | src/Larapack/FacebookGrant.php:84 | a new session has an empty owner type, a null owner id, no client and no scopes |
| Entities.Session.SetOwner | src/Larapack/FacebookGrant.php:85 | sets the owner type and id, changes nothing else, and returns the `session.owner` event, which names the new owner |
| Entities.Session.AssociateClient | src/Larapack/FacebookGrant.php:86 | sets the client and changes nothing else |
| Entities.Session.AssociateScope | src/Larapack/FacebookGrant.php:95 | adds the scope under its id unless that id is present, and keeps scope ids unique |
| Entities.AccessToken.constructor | src/Larapack/FacebookGrant.php:89 | a new access token has an empty id, expiry 0, no session and no scopes |
| Entities.AccessToken.SetId | src/Larapack/FacebookGrant.php:90 | sets the token id and changes nothing else |
| Entities.AccessToken.SetExpireTime | src/Larapack/FacebookGrant.php:91 | sets the expiry time and changes nothing else |
| Entities.AccessToken.AssociateScope | src/Larapack/FacebookGrant.php:99 | adds the scope under its id unless that id is present, and keeps scope ids unique |
| Entities.AccessToken.SetSession | src/Larapack/FacebookGrant.php:116 | links the token to the session and changes nothing else |
| Entities.RefreshToken.constructor | src/Larapack/FacebookGrant.php:108 | a new refresh token has an empty id, expiry 0 and no access token |
| Entities.RefreshToken.SetId | src/Larapack/FacebookGrant.php:109 | sets the token id and changes nothing else |
| Entities.RefreshToken.SetExpireTime | src/Larapack/FacebookGrant.php:110 | sets the expiry time and changes nothing else |
| Entities.RefreshToken.SetAccessToken | src/Larapack/FacebookGrant.php:120 | links the refresh token to the access token and changes nothing else |
| FacebookGrant.GetGatherUser | src/Larapack/FacebookGrant.php:132-135 | an absent `gather_user` setting means profiles are not gathered; a present setting is returned as it is |
| Php.LooselyNullVersusTruthy | src/Larapack/FacebookGrant.php:167 | every value loosely equal to null converts to false, and `"0"` is the only falsy value that is not loosely equal to null |
| FacebookGrant.GetClientId | src/Larapack/FacebookGrant.php:163-170 | succeeds exactly when the app id setting is present and not loosely null, and then returns it; otherwise fails with "client_id is not set" |
| FacebookGrant.GetClientSecret | src/Larapack/FacebookGrant.php:179-186 | succeeds exactly when the app secret setting is present and not loosely null, and then returns it; otherwise fails with "client_secret is not set" |
| FacebookGrant.GatherUser | src/Larapack/FacebookGrant.php:144-154 | Facebook is called only when both app settings are set, and then with those settings and the token; a missing app id is reported before a missing secret; a failure of the Facebook call becomes the grant's error |
| FacebookGrant.ProfileStage | src/Larapack/FacebookGrant.php:65-69 | with gathering off there is no profile and no effect; with gathering on the stage is `gatherUser`'s result, and a fetched profile is the one handed on |
| FacebookGrant.CompleteFlow | src/Larapack/FacebookGrant.php:33-125 | the imperative flow returns exactly the result and the effect trace of the reference definition `Flow`: calls, events (the session's owner event included) and saves, in order |
| FacebookGrant.IssueArtifacts | src/Larapack/FacebookGrant.php:83-122 | building the session and tokens with the entity setters gives exactly the token-type parameters of the reference issuance, and its effects in order: the session's owner event, then the saved artifacts |
| FacebookGrant.CompleteAfterClient | src/Larapack/FacebookGrant.php:60-124 | once the client is authenticated, the rest of the method returns exactly the reference outcome from the token check on, appended to the effects so far |
| FacebookGrant.NewSession | src/Larapack/FacebookGrant.php:84-96 | the new session is owned by "user" with the verifier's id, tied to the client and holds the collection of the validated scopes; the event it emits names that owner |
| FacebookGrant.NewAccessToken | src/Larapack/FacebookGrant.php:89-100 | the new access token has the generated id and expiry, holds exactly the session's scopes and is not yet linked to the session |
| FacebookGrant.AssociateScopes | src/Larapack/FacebookGrant.php:94-96 | after the loop the session's scopes are the collection of the validated scopes, and nothing else about the session has changed |
| FacebookGrant.CopySessionScopes | src/Larapack/FacebookGrant.php:98-100 | after the loop the access token holds exactly the session's scopes, and its session link is unchanged |
| GrantProperties.CredentialFallback | src/Larapack/FacebookGrant.php:36-45 | the client id is the body's `client_id` whenever the body has that key, even with value null, and otherwise the basic-auth user, or null when there is none; the secret likewise with the basic-auth password; so each is null exactly when the body value is null or, without a body key, the basic-auth value is absent |
| GrantProperties.MissingClientCredentials | src/Larapack/FacebookGrant.php:36-53 | a null client id fails with invalid_request(client_id) and a null secret with invalid_request(client_secret), both before any effect; the client store is consulted once, with the credentials and the grant identifier, exactly when both are present |
| GrantProperties.UnknownClient | src/Larapack/FacebookGrant.php:48-58 | when the store knows no such client, the flow emits one client-authentication-failed event after the lookup and fails with invalid_client |
| GrantProperties.MissingToken | src/Larapack/FacebookGrant.php:60-63 | for an authenticated client with a null token, the flow fails with invalid_request(token) after only the lookup |
| GrantProperties.TokenErrorAfterAuthentication | src/Larapack/FacebookGrant.php:47-63 | an invalid_request(token) error arises only once a client has been authenticated, and no event is emitted |
| GrantProperties.ProfileOnlyWhenGathering | src/Larapack/FacebookGrant.php:65-72 | Facebook is called only when gathering is on; with gathering off the verifier always receives a null profile |
| GrantProperties.ProfileFetchedWhenGathering | src/Larapack/FacebookGrant.php:65-72 | with gathering on, both app settings set and a profile returned by Facebook, the trace starts with the client lookup, then the Graph call with the app id, the app secret and the token, then the verifier call with that profile |
| GrantProperties.MissingFacebookSetting | src/Larapack/FacebookGrant.php:144-186 | with gathering on and an app setting unset, the flow fails with that setting's error after only the client lookup |
| GrantProperties.RejectedCredentials | src/Larapack/FacebookGrant.php:72-77 | a strict false from the verifier gives invalid_credentials, one user-authentication-failed event and nothing saved |
| GrantProperties.RejectedScopes | src/Larapack/FacebookGrant.php:79-81 | a scope-validation error is the flow's error, with no event and nothing saved |
| GrantProperties.SuccessOutcome | src/Larapack/FacebookGrant.php:33-124 | when the client is known, the token is present, the profile stage succeeds, the verifier does not return false and the scopes validate, the flow succeeds with the issued response, saves exactly the issued artifacts in order, and emits exactly one event, the session's owner event for "user" and the verifier's id |
| GrantProperties.EventsAndSaves | src/Larapack/FacebookGrant.php:33-125 | at most one event is emitted; a client-authentication-failed event is emitted exactly when the credentials are present and the store returns no client; on success the one event is the session's owner event naming the issued session's owner; something is saved exactly when the flow succeeds |
| GrantProperties.IssuedSessionAndAccessToken | src/Larapack/FacebookGrant.php:84-117 | on success the session is owned by "user" with the verifier's id, is tied to the authenticated client and holds each validated scope id once and only validated scopes (exactly them when their ids are unique); the response carries the access token id and the TTL; the session is saved first and then the access token, linked to that session |
| GrantProperties.RefreshTokenOnlyWithRefreshGrant | src/Larapack/FacebookGrant.php:106-122 | on success the response carries a refresh token exactly when the server offers the refresh_token grant; it is then saved last, linked to the access token, with expiry set from the refresh TTL |

## Left out

- The Facebook SDK call (`/me?fields=id`) is a function parameter returning a profile or an error message. HTTP and the SDK's own validation are not modelled.
- `SecureKey::generate()` randomness: the access-token and refresh-token ids are inputs.
- `time()`: the two clock readings are inputs.
- The Laravel `Config` facade and the HTTP request object are plain input values.
- The client store and the verifier callback are function parameters. Their own logic and the exceptions they throw are not modelled.
- The inherited `validateScopes` is a function parameter that returns the scopes or an error. Its error becomes the flow's error, but its own logic is not modelled.
- A verifier callback is assumed to be set. When none is callable, `getVerifyCredentialsCallback()` raises a server error at line 72 of `src/Larapack/FacebookGrant.php`. That error path is not modelled.
- `save()` persistence is not modelled. The model does not cover the storage-assigned session id, the writing of scope rows, or storage failures. Saves are recorded as artifacts in the trace.
- When a session has no scopes in memory, League's `getScopes` loads them from storage. The model reads the in-memory collection.
- The client store's redirect-uri argument is always null in the source and is not recorded.
- `getAccessTokenTTL`'s per-grant override is not modelled. The server carries one effective access-token TTL.
- The formatting of the token-type response (`token_type` and the JSON body) is not modelled. The model returns the session and the parameters that were set.
- The event emitter's listeners are not modelled. Events are recorded in the trace.
- League's `session.owner` event carries the session object itself. The model's event carries the owner type and id the session has when the event is emitted.
- PHP floats, arrays and objects as configuration or parameter values are not modelled.
