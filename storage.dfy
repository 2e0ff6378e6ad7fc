/**
 * The in-memory storage backend of niso's example server
 * (example/storage/storage.go): four maps, from client id to client, from
 * authorization code to its record, from access token to its record and from
 * refresh token to its record, updated in place by the save and delete calls.
 */
module Storage {
  import opened Wrappers

  /** A registered client. */
  datatype ClientData = ClientData(clientId: string, clientSecret: string, redirectUri: string)

  /** An issued authorization code; the storage only looks at `code`. */
  datatype AuthorizationData = AuthorizationData(
    code: string, clientId: string, expiresIn: int, scope: string,
    redirectUri: string, state: string, createdAt: int)

  /** An issued access token; the storage only looks at `accessToken`. */
  datatype AccessData = AccessData(
    accessToken: string, clientId: string, expiresIn: int, scope: string,
    redirectUri: string, createdAt: int)

  /** An issued refresh token; the storage only looks at `refreshToken`. */
  datatype RefreshTokenData = RefreshTokenData(
    refreshToken: string, clientId: string, accessToken: string, scope: string)

  /**
   * A storage failure: the distinguished "not found" error the engine turns
   * into a client error, or a plain error.
   */
  datatype StorageError = NotFoundError(text: string) | PlainError(text: string)

  /** The one client the example storage is created with. */
  const DemoClient := ClientData("1234", "aabbccdd", "http://localhost:14000/appauth")

  class ExampleStorage {
    var clients: map<string, ClientData>
    var authorize: map<string, AuthorizationData>
    var access: map<string, AccessData>
    var refresh: map<string, RefreshTokenData>

    /** Every record is stored under its own key. */
    ghost predicate Valid()
      reads this
    {
      && (forall id :: id in clients ==> clients[id].clientId == id)
      && (forall c :: c in authorize ==> authorize[c].code == c)
      && (forall t :: t in access ==> access[t].accessToken == t)
      && (forall t :: t in refresh ==> refresh[t].refreshToken == t)
    }

    /** A storage with the demo client and no codes or tokens. */
    constructor ()
      ensures Valid()
      ensures clients == map[DemoClient.clientId := DemoClient]
      ensures authorize == map[] && access == map[] && refresh == map[]
    {
      clients := map["1234" := ClientData("1234", "aabbccdd", "http://localhost:14000/appauth")];
      authorize := map[];
      access := map[];
      refresh := map[];
    }

    /** Releases nothing and always succeeds. */
    method Close() returns (err: Option<StorageError>)
      ensures err == None
    {
      return None;
    }

    /** The client stored under `id`, or a not-found error. */
    method GetClientData(id: string) returns (r: Result<ClientData, StorageError>)
      ensures r.Ok? <==> id in clients
      ensures r.Ok? ==> r.value == clients[id]
      ensures Valid() && r.Ok? ==> r.value.clientId == id
      ensures r.Err? ==> r.error == NotFoundError("client not found")
    {
      if id in clients {
        return Ok(clients[id]);
      }
      return Err(NotFoundError("client not found"));
    }

    /** Stores `data` under its code, replacing any record there; always succeeds. */
    method SaveAuthorizeData(data: AuthorizationData) returns (err: Option<StorageError>)
      modifies this`authorize
      ensures err == None
      ensures authorize == old(authorize)[data.code := data]
      ensures old(Valid()) ==> Valid()
    {
      authorize := authorize[data.code := data];
      return None;
    }

    /** The record stored under `code`, or a plain (not not-found) error. */
    method GetAuthorizeData(code: string) returns (r: Result<AuthorizationData, StorageError>)
      ensures r.Ok? <==> code in authorize
      ensures r.Ok? ==> r.value == authorize[code]
      ensures Valid() && r.Ok? ==> r.value.code == code
      ensures r.Err? ==> r.error == PlainError("authorize not found")
    {
      if code in authorize {
        return Ok(authorize[code]);
      }
      return Err(PlainError("authorize not found"));
    }

    /** Removes `code`, present or not; always succeeds. */
    method DeleteAuthorizeData(code: string) returns (err: Option<StorageError>)
      modifies this`authorize
      ensures err == None
      ensures authorize == old(authorize) - {code}
      ensures old(Valid()) ==> Valid()
    {
      authorize := authorize - {code};
      return None;
    }

    /** Stores `data` under its access token; always succeeds. */
    method SaveAccessData(data: AccessData) returns (err: Option<StorageError>)
      modifies this`access
      ensures err == None
      ensures access == old(access)[data.accessToken := data]
      ensures old(Valid()) ==> Valid()
    {
      access := access[data.accessToken := data];
      return None;
    }

    /** The record stored under `token`, or a plain (not not-found) error. */
    method GetRefreshTokenData(token: string) returns (r: Result<RefreshTokenData, StorageError>)
      ensures r.Ok? <==> token in refresh
      ensures r.Ok? ==> r.value == refresh[token]
      ensures Valid() && r.Ok? ==> r.value.refreshToken == token
      ensures r.Err? ==> r.error == PlainError("refresh token data not found")
    {
      if token in refresh {
        return Ok(refresh[token]);
      }
      return Err(PlainError("refresh token data not found"));
    }

    /** Stores `data` under its refresh token, replacing any record there; always succeeds. */
    method SaveRefreshTokenData(data: RefreshTokenData) returns (err: Option<StorageError>)
      modifies this`refresh
      ensures err == None
      ensures refresh == old(refresh)[data.refreshToken := data]
      ensures old(Valid()) ==> Valid()
    {
      refresh := refresh[data.refreshToken := data];
      return None;
    }

    /** Removes `token`, present or not; always succeeds. */
    method DeleteRefreshTokenData(token: string) returns (err: Option<StorageError>)
      modifies this`refresh
      ensures err == None
      ensures refresh == old(refresh) - {token}
      ensures old(Valid()) ==> Valid()
    {
      refresh := refresh - {token};
      return None;
    }
  }

  // ---------------------------------------------------------------------------
  // Clients of the storage: what a caller can rely on from the contracts alone
  // ---------------------------------------------------------------------------

  /** A fresh storage knows the demo client and reports any other id as not found. */
  method FreshStorageClients(id: string) returns (r: Result<ClientData, StorageError>)
    ensures id == "1234" ==> r == Ok(DemoClient)
    ensures id != "1234" ==> r == Err(NotFoundError("client not found"))
  {
    var s := new ExampleStorage();
    r := s.GetClientData(id);
  }

  /**
   * Saving a code and reading it back returns what was saved, even over an
   * earlier record; once deleted, the code is gone (a code is used once), and
   * deleting again changes nothing. The other three maps are untouched.
   */
  method AuthorizeLifecycle(s: ExampleStorage, d: AuthorizationData)
    returns (got: Result<AuthorizationData, StorageError>, gone: Result<AuthorizationData, StorageError>)
    modifies s
    ensures got == Ok(d)
    ensures gone == Err(PlainError("authorize not found"))
    ensures s.authorize == old(s.authorize) - {d.code}
    ensures s.clients == old(s.clients) && s.access == old(s.access) && s.refresh == old(s.refresh)
  {
    var _ := s.SaveAuthorizeData(d);
    got := s.GetAuthorizeData(d.code);
    var _ := s.DeleteAuthorizeData(d.code);
    var _ := s.DeleteAuthorizeData(d.code);
    gone := s.GetAuthorizeData(d.code);
  }

  /** The same lifecycle for refresh tokens. */
  method RefreshLifecycle(s: ExampleStorage, d: RefreshTokenData)
    returns (got: Result<RefreshTokenData, StorageError>, gone: Result<RefreshTokenData, StorageError>)
    modifies s
    ensures got == Ok(d)
    ensures gone == Err(PlainError("refresh token data not found"))
    ensures s.refresh == old(s.refresh) - {d.refreshToken}
    ensures s.clients == old(s.clients) && s.authorize == old(s.authorize) && s.access == old(s.access)
  {
    var _ := s.SaveRefreshTokenData(d);
    got := s.GetRefreshTokenData(d.refreshToken);
    var _ := s.DeleteRefreshTokenData(d.refreshToken);
    var _ := s.DeleteRefreshTokenData(d.refreshToken);
    gone := s.GetRefreshTokenData(d.refreshToken);
  }

  /** Saving an access token leaves every other stored token where it was. */
  method AccessSaveKeepsOthers(s: ExampleStorage, d: AccessData, other: string)
    modifies s
    requires other != d.accessToken
    ensures d.accessToken in s.access && s.access[d.accessToken] == d
    ensures other in s.access <==> other in old(s.access)
    ensures other in s.access ==> s.access[other] == old(s.access)[other]
    ensures s.clients == old(s.clients) && s.authorize == old(s.authorize) && s.refresh == old(s.refresh)
  {
    var _ := s.SaveAccessData(d);
  }
}
