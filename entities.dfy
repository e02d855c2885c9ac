/** The server-side artifacts the grant builds: a session, an access token and a
    refresh token. Each is an object filled in by setters and then saved; a
    `...Record` value is the snapshot of an object's state that a save writes. */
module Entities {
  import opened Wrappers
  import opened Php
  import opened Scopes

  /** The authenticated client application. */
  datatype Client = Client(id: string, name: string)

  datatype SessionRecord = SessionRecord(ownerType: string, ownerId: PhpValue, client: Option<Client>, scopes: seq<Scope>)

  datatype AccessTokenRecord = AccessTokenRecord(id: string, expireTime: int, scopes: seq<Scope>)

  datatype RefreshTokenRecord = RefreshTokenRecord(id: string, expireTime: int)

  /** The `session.owner` event a session emits when its owner is set. */
  datatype SessionOwnerEvent = SessionOwnerEvent(ownerType: string, ownerId: PhpValue)

  class Session {
    var ownerType: string   // "" while no owner is set
    var ownerId: PhpValue
    var client: Option<Client>
    var scopes: seq<Scope>

    /** The scope collection is keyed by scope id. */
    ghost predicate Valid()
      reads this
    {
      UniqueIds(scopes)
    }

    function Record(): SessionRecord
      reads this
    {
      SessionRecord(ownerType, ownerId, client, scopes)
    }

    constructor ()
      ensures Valid()
      ensures Record() == SessionRecord("", PNull, None, [])
    {
      ownerType, ownerId, client, scopes := "", PNull, None, [];
    }

    /** Sets the owner and returns the `session.owner` event to emit, which names the
        new owner. */
    method SetOwner(ownerType: string, ownerId: PhpValue) returns (event: SessionOwnerEvent)
      modifies this
      ensures Record() == old(Record()).(ownerType := ownerType, ownerId := ownerId)
      ensures event == SessionOwnerEvent(Record().ownerType, Record().ownerId)
    {
      this.ownerType, this.ownerId := ownerType, ownerId;
      event := SessionOwnerEvent(ownerType, ownerId);
    }

    method AssociateClient(client: Client)
      modifies this
      ensures Record() == old(Record()).(client := Some(client))
    {
      this.client := Some(client);
    }

    method AssociateScope(scope: Scope)
      requires Valid()
      modifies this
      ensures Valid()
      ensures Record() == old(Record()).(scopes := Associate(old(scopes), scope))
    {
      scopes := Associate(scopes, scope);
    }
  }

  class AccessToken {
    var id: string
    var expireTime: int
    var session: Session?
    var scopes: seq<Scope>

    ghost predicate Valid()
      reads this
    {
      UniqueIds(scopes)
    }

    /** The token's own state; the linked session is the `session` field. */
    function Record(): AccessTokenRecord
      reads this
    {
      AccessTokenRecord(id, expireTime, scopes)
    }

    constructor ()
      ensures Valid() && session == null
      ensures Record() == AccessTokenRecord("", 0, [])
    {
      id, expireTime, session, scopes := "", 0, null, [];
    }

    method SetId(id: string)
      modifies this
      ensures session == old(session)
      ensures Record() == old(Record()).(id := id)
    {
      this.id := id;
    }

    method SetExpireTime(expireTime: int)
      modifies this
      ensures session == old(session)
      ensures Record() == old(Record()).(expireTime := expireTime)
    {
      this.expireTime := expireTime;
    }

    method SetSession(session: Session)
      modifies this
      ensures this.session == session
      ensures Record() == old(Record())
    {
      this.session := session;
    }

    method AssociateScope(scope: Scope)
      requires Valid()
      modifies this
      ensures Valid() && session == old(session)
      ensures Record() == old(Record()).(scopes := Associate(old(scopes), scope))
    {
      scopes := Associate(scopes, scope);
    }
  }

  class RefreshToken {
    var id: string
    var expireTime: int
    var accessToken: AccessToken?

    /** The token's own state; the linked access token is the `accessToken` field. */
    function Record(): RefreshTokenRecord
      reads this
    {
      RefreshTokenRecord(id, expireTime)
    }

    constructor ()
      ensures accessToken == null
      ensures Record() == RefreshTokenRecord("", 0)
    {
      id, expireTime, accessToken := "", 0, null;
    }

    method SetId(id: string)
      modifies this
      ensures accessToken == old(accessToken)
      ensures Record() == old(Record()).(id := id)
    {
      this.id := id;
    }

    method SetExpireTime(expireTime: int)
      modifies this
      ensures accessToken == old(accessToken)
      ensures Record() == old(Record()).(expireTime := expireTime)
    {
      this.expireTime := expireTime;
    }

    method SetAccessToken(accessToken: AccessToken)
      modifies this
      ensures this.accessToken == accessToken
      ensures Record() == old(Record())
    {
      this.accessToken := accessToken;
    }
  }
}
