/** The authentication session (`AuthProvider`): the `user` state, the
    persisted `user`, `accessToken`, `refreshToken` and `permission` slots,
    and the login, logout and token-refresh transitions. Network requests
    and JWT decoding are inputs: each method receives what the request or
    the decoder produced. */
module AuthContext {
  import opened Collections
  import opened Storage

  /** The authenticated actor, decoded from the access token. A claim the
      token lacks is modelled as "", which every consumer treats as it
      treats undefined. */
  datatype User = User(id: string, name: string, email: string, phone: string, role: string, createdAt: string)

  /** The outcome of the login request: it threw, or it answered with these
      token fields (either may be absent). */
  datatype LoginResponse = LoginRequestFailed | LoginResponded(accessToken: Option<string>, refreshToken: Option<string>)

  /** The outcome of the `getUserByEmail` query that fetches permissions. */
  datatype PermissionQuery = QueryFailed | QueryAnswered(permissions: Json)

  /** The outcome of the token refresh request. */
  datatype RefreshResponse = RefreshRequestFailed | Refreshed(accessToken: Option<string>, refreshToken: Option<string>)

  /** JavaScript truthiness of an optional string. */
  predicate Truthy(s: Option<string>)
  {
    s.Some? && s.value != ""
  }

  class AuthProvider {
    /** React state `user`. */
    var user: Option<User>
    /** The persisted slots. */
    var userSlot: Option<User>
    var accessTokenSlot: Option<string>
    var refreshTokenSlot: Option<string>
    var permissionSlot: Option<Json>

    /** The effect on `user` keeps the persisted user slot equal to the
        state: written when non-null, removed when null. */
    ghost predicate Valid()
      reads this
    {
      userSlot == user
    }

    /** The provider starts from whatever the user slot holds. */
    constructor (storedUser: Option<User>, accessToken: Option<string>, refreshToken: Option<string>, permission: Option<Json>)
      ensures Valid()
      ensures user == storedUser
      ensures accessTokenSlot == accessToken && refreshTokenSlot == refreshToken && permissionSlot == permission
    {
      user := storedUser;
      userSlot := storedUser;
      accessTokenSlot := accessToken;
      refreshTokenSlot := refreshToken;
      permissionSlot := permission;
    }

    /** `isAuthenticated: !!user`. */
    function IsAuthenticated(): (b: bool)
      reads this
      ensures b <==> user != None
    {
      user.Some?
    }

    /** What `secureGetItem("permission")` yields: null for an empty slot. */
    function StoredPermission(): (v: Json)
      reads this
      ensures permissionSlot == None ==> v == JNull
      ensures permissionSlot != None ==> v == permissionSlot.value
    {
      if permissionSlot.Some? then permissionSlot.value else JNull
    }

    /** `login(email, password)`. The tokens and the permissions are
        written before the access token is inspected, so a response
        without a usable token still overwrites the token slots. The
        decoded token is None when `jwtDecode` throws. */
    method Login(response: LoginResponse, query: PermissionQuery, decoded: Option<User>) returns (ok: bool)
      requires Valid()
      modifies this
      ensures Valid()
      ensures ok <==> response.LoginResponded? && Truthy(response.accessToken) && decoded.Some?
      ensures ok ==> user == Some(decoded.value)
      ensures !ok ==> user == old(user)
      ensures response.LoginRequestFailed? ==>
        accessTokenSlot == old(accessTokenSlot) && refreshTokenSlot == old(refreshTokenSlot)
      ensures response.LoginResponded? ==>
        accessTokenSlot == response.accessToken && refreshTokenSlot == response.refreshToken
      ensures permissionSlot ==
        if response.LoginResponded? && query.QueryAnswered? then Some(query.permissions) else old(permissionSlot)
    {
      if response.LoginRequestFailed? {
        // the outer catch: "Login failed"
        return false;
      }
      accessTokenSlot := response.accessToken;
      refreshTokenSlot := response.refreshToken;
      if query.QueryAnswered? {
        permissionSlot := Some(query.permissions);
      }
      // a failed permission query is logged and swallowed
      if Truthy(response.accessToken) {
        if decoded.None? {
          // jwtDecode threw: caught by the outer catch
          return false;
        }
        user := Some(decoded.value);
        userSlot := user;
        return true;
      }
      return false;
    }

    /** `logout()`: clears the user and removes the three token and
        permission slots; the effect on `user` removes the user slot. */
    method Logout()
      modifies this
      ensures Valid()
      ensures user == None && !IsAuthenticated()
      ensures accessTokenSlot == None && refreshTokenSlot == None && permissionSlot == None
    {
      user := None;
      userSlot := None;
      accessTokenSlot := None;
      refreshTokenSlot := None;
      permissionSlot := None;
    }

    /** `refreshAccessToken()`. Without a refresh token or a stored user
        email it returns null and sends no request; a failed request logs
        the user out. */
    method RefreshAccessToken(response: RefreshResponse) returns (token: Option<string>, requested: bool)
      requires Valid()
      modifies this
      ensures Valid()
      ensures requested <==> Truthy(old(refreshTokenSlot)) && old(userSlot).Some? && old(userSlot).value.email != ""
      ensures !requested ==>
        token == None && user == old(user) && accessTokenSlot == old(accessTokenSlot) &&
        refreshTokenSlot == old(refreshTokenSlot) && permissionSlot == old(permissionSlot)
      ensures requested && response.Refreshed? ==>
        token == response.accessToken && accessTokenSlot == response.accessToken &&
        refreshTokenSlot == response.refreshToken && user == old(user) && permissionSlot == old(permissionSlot)
      ensures requested && response.RefreshRequestFailed? ==>
        token == None && user == None && accessTokenSlot == None && refreshTokenSlot == None && permissionSlot == None
    {
      requested := Truthy(refreshTokenSlot) && userSlot.Some? && userSlot.value.email != "";
      if !requested {
        return None, false;
      }
      if response.RefreshRequestFailed? {
        Logout();
        return None, true;
      }
      accessTokenSlot := response.accessToken;
      refreshTokenSlot := response.refreshToken;
      token := response.accessToken;
    }
  }
}
