/** The admin session (`AuthProvider`): the current user, whether the
    initial check is still running, the check of a stored token against
    `/auth/me`, login through the CSRF handshake, logout, and the permission
    and role queries the pages use to gate their actions. */
module Auth {
  import opened Common
  import opened Web
  import opened ApiClient

  const MePath := "/auth/me"
  const AccessDeniedMessage := "Access denied: Admin privileges required"
  const InvalidResponseMessage := "Invalid response format"
  const LoginFailedMessage := "Login failed"

  datatype Role = SuperAdmin | Admin | Moderator | Support {
    function Name(): string {
      match this
      case SuperAdmin => "super_admin"
      case Admin => "admin"
      case Moderator => "moderator"
      case Support => "support"
    }
  }

  /** The backend's user record, as far as the provider copies it. */
  datatype BackendUser = BackendUser(
    id: string, email: string, firstName: string, lastName: string,
    userType: string, isVerified: bool,
    phone: string, businessName: string, verificationTier: string)

  datatype AdminUser = AdminUser(
    id: string, email: string, firstName: string, lastName: string,
    role: Role, permissions: Option<seq<string>>, isActive: bool,
    phone: string, businessName: string, userType: string, verificationTier: string, isVerified: bool)

  /** The mapping both checkAuth and login apply: only `admin` becomes the
      admin role, every other user type becomes support; the permission
      list starts empty and `isVerified || true` makes every user active. */
  function ToAdminUser(b: BackendUser): (u: AdminUser)
    ensures u.role == Admin <==> b.userType == "admin"
    ensures u.role == Support <==> b.userType != "admin"
    ensures u.permissions == Some([]) && u.isActive
    ensures u.id == b.id && u.email == b.email && u.firstName == b.firstName && u.lastName == b.lastName
    ensures u.userType == b.userType && u.isVerified == b.isVerified
    ensures u.phone == b.phone && u.businessName == b.businessName && u.verificationTier == b.verificationTier
  {
    AdminUser(b.id, b.email, b.firstName, b.lastName,
              if b.userType == "admin" then Admin else Support,
              Some([]), true,
              b.phone, b.businessName, b.userType, b.verificationTier, b.isVerified)
  }

  /** hasPermission: nobody when signed out; super admins and admins hold
      every permission; anyone else only the ones listed. */
  function HasPermission(user: Option<AdminUser>, permission: string): (r: bool)
    ensures r <==>
              user.Some? &&
              (user.value.role in {SuperAdmin, Admin} ||
               (user.value.permissions.Some? && permission in user.value.permissions.value))
  {
    match user
    case None => false
    case Some(u) =>
      u.role == SuperAdmin || u.role == Admin ||
      (match u.permissions case Some(ps) => permission in ps case None => false)
  }

  /** The argument of hasRole: one role name or a list of them. */
  datatype RoleQuery = One(name: string) | Many(names: seq<string>)

  function Names(q: RoleQuery): seq<string> {
    match q
    case One(n) => [n]
    case Many(ns) => ns
  }

  /** hasRole: the user's role name is among the names asked for. */
  function HasRole(user: Option<AdminUser>, q: RoleQuery): (r: bool)
    ensures r <==> user.Some? && exists i :: 0 <= i < |Names(q)| && Names(q)[i] == user.value.role.Name()
  {
    match user
    case None => false
    case Some(u) => u.role.Name() in Names(q)
  }

  /** Asking for one role is asking for the list holding only it. */
  lemma HasRoleOneIsMany(user: Option<AdminUser>, name: string)
    ensures HasRole(user, One(name)) == HasRole(user, Many([name]))
  {
  }

  /** A user mapped from the backend holds a permission exactly when the
      backend calls them an admin: the empty list gives a seller nothing. */
  lemma MappedUserPermissions(b: BackendUser, permission: string)
    ensures HasPermission(Some(ToAdminUser(b)), permission) <==> b.userType == "admin"
  {
  }

  /** The roles a mapped user can have are only admin and support. */
  lemma MappedUserRoles(b: BackendUser)
    ensures HasRole(Some(ToAdminUser(b)), Many(["admin", "support"]))
    ensures !HasRole(Some(ToAdminUser(b)), Many(["super_admin", "moderator"]))
  {
    var n := ToAdminUser(b).role.Name();
    assert n == "admin" || n == "support";
    assert n in ["admin", "support"];
  }

  // ---------------------------------------------------------------------
  // Checking a stored token

  /** The body of `/auth/me`: `success`, and `data` when present. */
  datatype MeBody = MeBody(success: bool, data: Option<BackendUser>)

  /** checkAuth's reading of a delivered `/auth/me` body. */
  function Validate(body: MeBody): (r: Result<AdminUser>)
    ensures r.Ok? <==> body.success && body.data.Some? && body.data.value.userType in {"admin", "seller"}
    ensures r.Ok? ==> r.value == ToAdminUser(body.data.value)
    ensures !(body.success && body.data.Some?) ==> r == Err(Thrown(InvalidResponseMessage))
    ensures body.success && body.data.Some? && r.Err? ==> r == Err(Thrown(AccessDeniedMessage))
  {
    if body.success && body.data.Some? then
      var b := body.data.value;
      if b.userType != "admin" && b.userType != "seller" then Err(Thrown(AccessDeniedMessage))
      else Ok(ToAdminUser(b))
    else Err(Thrown(InvalidResponseMessage))
  }

  /** A user accepted by the check is an admin exactly when the backend
      says `admin`; an accepted seller becomes support and holds no
      permission. */
  lemma ValidatedRoles(body: MeBody, permission: string)
    requires Validate(body).Ok?
    ensures var u := Validate(body).value;
            (u.role == Admin) != (body.data.value.userType == "seller")
    ensures body.data.value.userType == "seller" ==> !HasPermission(Some(Validate(body).value), permission)
  {
    MappedUserPermissions(body.data.value, permission);
  }

  /** What `/auth/me` settles the check to. */
  function CheckResult(me: Reply<MeBody>): (r: Result<AdminUser>)
    ensures me.Failed? ==> r == Err(me.error)
    ensures me.Delivered? ==> r == Validate(me.data)
  {
    match me
    case Failed(e) => Err(e)
    case Delivered(body) => Validate(body)
  }

  /** Storage after a failed check: all three tokens gone, the rest kept. */
  function Cleared(s: Storage): (r: Storage)
    ensures AdminTokenKey !in r && RefreshTokenKey !in r && CsrfTokenKey !in r
    ensures forall key :: key in s && key !in {AdminTokenKey, RefreshTokenKey, CsrfTokenKey} ==> key in r && r[key] == s[key]
    ensures r.Keys <= s.Keys
  {
    s - {AdminTokenKey, RefreshTokenKey, CsrfTokenKey}
  }

  /** Storage after logout: both session tokens gone, the CSRF token and
      the rest kept. */
  function SignedOut(s: Storage): (r: Storage)
    ensures AdminTokenKey !in r && RefreshTokenKey !in r
    ensures forall key :: key in s && key !in {AdminTokenKey, RefreshTokenKey} ==> key in r && r[key] == s[key]
    ensures r.Keys <= s.Keys
  {
    s - {AdminTokenKey, RefreshTokenKey}
  }

  /** Logout keeps the CSRF token that a failed check would drop. */
  lemma SignedOutKeepsCsrf(s: Storage)
    requires Has(s, CsrfTokenKey)
    ensures Has(SignedOut(s), CsrfTokenKey) && SignedOut(s)[CsrfTokenKey] == s[CsrfTokenKey]
    ensures !Has(Cleared(s), CsrfTokenKey)
  {
    assert CsrfTokenKey !in {AdminTokenKey, RefreshTokenKey};
  }

  // ---------------------------------------------------------------------
  // Login

  /** `response.data.data` of a login: any of its parts may be missing. */
  datatype LoginData = LoginData(user: Option<BackendUser>, token: Option<string>, refreshToken: Option<string>)
  datatype LoginBody = LoginBody(data: Option<LoginData>)

  /** What the provider does with loginWithCSRF's outcome:
      - tokens:   the two values written to storage (as text), if it got that far;
      - cookie:   the access token written to the cookie, if it got that far;
      - signedIn: the user set, which happens exactly when login succeeds;
      - failure:  the message of the error login rethrows.
      A missing `data`, a missing access token (`.length` of undefined) or a
      missing user record raises a TypeError part way through. */
  datatype LoginEffect = LoginEffect(tokens: Option<(string, string)>, cookie: Option<string>,
                                     signedIn: Option<AdminUser>, failure: Option<string>)

  function AfterLogin(response: Result<LoginBody>): (r: LoginEffect)
    ensures r.failure.None? <==> r.signedIn.Some?
    ensures r.signedIn.Some? ==>
              && response.Ok? && response.value.data.Some?
              && var d := response.value.data.value;
                 d.token.Some? && d.user.Some? && r.signedIn.value == ToAdminUser(d.user.value)
                 && r.cookie == d.token && r.tokens == Some((d.token.value, StoredText(d.refreshToken)))
    ensures r.cookie.Some? ==> r.tokens.Some? && r.tokens.value.0 == r.cookie.value
    ensures response.Err? ==> r == LoginEffect(None, None, None, Some(Describe(response.error, LoginFailedMessage)))
    ensures r.failure.Some? ==> r.failure.value != ""
  {
    match response
    case Err(e) => LoginEffect(None, None, None, Some(Describe(e, LoginFailedMessage)))
    case Ok(body) =>
      match body.data
      case None => LoginEffect(None, None, None, Some(ReadOfUndefined))
      case Some(d) =>
        var tokens := Some((StoredText(d.token), StoredText(d.refreshToken)));
        match d.token
        case None => LoginEffect(tokens, None, None, Some(ReadOfUndefined))
        case Some(t) =>
          match d.user
          case None => LoginEffect(tokens, Some(t), None, Some(ReadOfUndefined))
          case Some(b) => LoginEffect(tokens, Some(t), Some(ToAdminUser(b)), None)
  }

  /** The storage written by a login that reached the token step. */
  function WithTokens(s: Storage, tokens: Option<(string, string)>): Storage {
    match tokens
    case None => s
    case Some((access, refresh)) => s[AdminTokenKey := access][RefreshTokenKey := refresh]
  }

  /** A successful login leaves a session that the request interceptor
      turns into a bearer header, with the cookie mirroring the token. */
  lemma LoginSignsIn(s: Storage, response: Result<LoginBody>, req: Request)
    requires AfterLogin(response).signedIn.Some?
    requires response.value.data.value.token.value != ""
    ensures var r := AfterLogin(response);
            var t := response.value.data.value.token.value;
            && Has(WithTokens(s, r.tokens), AdminTokenKey)
            && Intercept(WithTokens(s, r.tokens), req).headers[AuthorizationHeader] == "Bearer " + t
            && r.cookie == Some(t)
  {
    var r := AfterLogin(response);
    assert AdminTokenKey != RefreshTokenKey;
    assert WithTokens(s, r.tokens)[AdminTokenKey] == response.value.data.value.token.value;
  }

  class AuthProvider {
    const client: AdminApiClient
    var user: Option<AdminUser>
    var isLoading: bool
    /** The targets of `router.push`, in order. */
    var pushed: seq<string>

    constructor (client: AdminApiClient)
      ensures this.client == client && user == None && isLoading && pushed == []
    {
      this.client := client;
      user := None;
      isLoading := true;
      pushed := [];
    }

    /** `isAuthenticated: !!user`. */
    predicate IsAuthenticated()
      reads this
      ensures IsAuthenticated() <==> user.Some?
    {
      user.Some?
    }

    /** checkAuth: without a stored token only the loading flag changes;
        otherwise `/auth/me` decides between keeping the session (and
        refreshing the cookie) and clearing all three tokens. */
    method CheckAuth(me: Reply<MeBody>)
      modifies this`user, this`isLoading, client`wire, client.browser`storage, client.browser`cookieToken, client.browser`location
      ensures !isLoading && pushed == old(pushed) && client.browser.location == old(client.browser.location)
      ensures !Has(old(client.browser.storage), AdminTokenKey) ==>
                && user == old(user) && client.wire == old(client.wire)
                && client.browser.storage == old(client.browser.storage)
                && client.browser.cookieToken == old(client.browser.cookieToken)
      ensures Has(old(client.browser.storage), AdminTokenKey) ==>
                && client.wire == old(client.wire) + [AuthRoot(Request("get", MePath, AuthHeaders(old(client.browser.storage), "get"), false, false))]
                && match CheckResult(me)
                   case Ok(u) =>
                     && user == Some(u)
                     && client.browser.storage == old(client.browser.storage)
                     && client.browser.cookieToken == Some(old(client.browser.storage)[AdminTokenKey])
                   case Err(_) =>
                     && user == None
                     && client.browser.storage == Cleared(old(client.browser.storage))
                     && client.browser.cookieToken == None
    {
      var token := Get(client.browser.storage, AdminTokenKey);
      if token == "" {
        isLoading := false;
        return;
      }
      assert StartsWith(MePath, "/auth/");
      assert AuthHeaders(client.browser.storage, "get") + map[] == AuthHeaders(client.browser.storage, "get");
      // a get on an /auth/ route consults neither a CSRF nor a refresh answer
      var response := client.Call(GetVerb, MePath, map[], _ => me, FetchFailed(Thrown("")), RefreshFailed);
      var checked := match response case Ok(body) => Validate(body) case Err(e) => Err(e);
      if checked.Ok? {
        user := Some(checked.value);
        client.browser.cookieToken := Some(token);
      } else {
        client.browser.storage := client.browser.storage - {AdminTokenKey, RefreshTokenKey, CsrfTokenKey};
        client.browser.cookieToken := None;
        user := None;
      }
      isLoading := false;
    }

    /** login: the CSRF handshake, then the steps of AfterLogin; the user is
        sent to the dashboard exactly when login succeeds. */
    method Login(email: string, password: string, csrf: CsrfAnswer, reply: Reply<LoginBody>) returns (failure: Option<string>)
      modifies this`user, this`pushed, client`wire, client.browser`storage, client.browser`cookieToken
      ensures var handshake := LoginHandshake(old(client.browser.storage), email, password, csrf, reply);
              var effect := AfterLogin(handshake.result);
              && failure == effect.failure
              && client.wire == old(client.wire) + handshake.wire
              && client.browser.storage == WithTokens(handshake.storage, effect.tokens)
              && client.browser.cookieToken == (if effect.cookie.Some? then effect.cookie else old(client.browser.cookieToken))
              && user == (if effect.signedIn.Some? then effect.signedIn else old(user))
              && pushed == old(pushed) + (if effect.signedIn.Some? then ["/dashboard"] else [])
              && isLoading == old(isLoading)
      ensures failure.None? ==> IsAuthenticated()
    {
      var response := client.LoginWithCsrf(email, password, csrf, reply);
      if response.Err? {
        return Some(Describe(response.error, LoginFailedMessage));
      }
      var data := response.value.data;
      if data.None? {
        return Some(ReadOfUndefined);
      }
      var d := data.value;
      client.browser.storage := client.browser.storage[AdminTokenKey := StoredText(d.token)][RefreshTokenKey := StoredText(d.refreshToken)];
      if d.token.None? {
        return Some(ReadOfUndefined);
      }
      client.browser.cookieToken := d.token;
      if d.user.None? {
        return Some(ReadOfUndefined);
      }
      user := Some(ToAdminUser(d.user.value));
      pushed := pushed + ["/dashboard"];
      return None;
    }

    /** logout: both session tokens and the cookie go, the CSRF token stays,
        and the user is sent to the login page. */
    method Logout()
      modifies this`user, this`pushed, client.browser`storage, client.browser`cookieToken
      ensures client.browser.storage == SignedOut(old(client.browser.storage))
      ensures client.browser.cookieToken == None && user == None && !IsAuthenticated()
      ensures pushed == old(pushed) + ["/login"] && isLoading == old(isLoading)
    {
      client.browser.storage := client.browser.storage - {AdminTokenKey, RefreshTokenKey};
      client.browser.cookieToken := None;
      user := None;
      pushed := pushed + ["/login"];
    }
  }
}
