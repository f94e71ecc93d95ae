/** The client session: four strings in the browser's local storage, written
    by `loginUser`, read by the navbar's mount guard and by `getAuthHeaders`,
    and removed by the navbar's logout. Storage is a map from key to string,
    and a navigation to /login is a flag on the browser. */
module Session {
  import opened Common
  import Views

  type Storage = map<string, string>

  type Headers = map<string, string>

  const AccessKey := "access"
  const RefreshKey := "refresh"
  const UsernameKey := "username"
  const RoleKey := "role"

  /** The four keys a login writes and a logout removes. */
  const SessionKeys: set<string> := {AccessKey, RefreshKey, UsernameKey, RoleKey}

  /** `localStorage.getItem(key)`: the stored string, or null. */
  function GetItem(storage: Storage, key: string): Option<string> {
    if key in storage then Some(storage[key]) else None
  }

  /** The request config `getAuthHeaders` builds: `undefined` (None) when the
      `access` entry is missing or empty, otherwise exactly one header,
      `Authorization: Bearer <token>` as in section 2.1 of RFC 6750. */
  function AuthHeaders(storage: Storage): (r: Option<Headers>)
    ensures r.None? <==> (AccessKey !in storage || storage[AccessKey] == "")
    ensures r.Some? ==> r.value.Keys == {"Authorization"}
    ensures r.Some? ==> r.value["Authorization"] == "Bearer " + storage[AccessKey]
  {
    var token := GetItem(storage, AccessKey);
    if !Truthy(token) then None else Some(map["Authorization" := "Bearer " + token.value])
  }

  /** Only the `access` entry matters to the header builder, and the token can be
      read back from the header after the "Bearer " prefix. */
  lemma {:induction false} AuthHeadersDependOnlyOnAccess(s1: Storage, s2: Storage)
    requires GetItem(s1, AccessKey) == GetItem(s2, AccessKey)
    ensures AuthHeaders(s1) == AuthHeaders(s2)
    ensures AuthHeaders(s1).Some? ==> AuthHeaders(s1).value["Authorization"][7..] == s1[AccessKey]
  {
    if AccessKey in s1 {
      assert s1[AccessKey] == s2[AccessKey];
    }
  }

  /** The navbar's mount guard: both `username` and `role` stored and non-empty. */
  predicate NavbarGuardPasses(storage: Storage) {
    Truthy(GetItem(storage, UsernameKey)) && Truthy(GetItem(storage, RoleKey))
  }

  /** The body of the login response `loginUser` reads. */
  datatype LoginResponse = LoginResponse(access: string, refresh: string, username: string, role: string)

  /** The storage after the four writes of a successful login. */
  function StoreLogin(storage: Storage, resp: LoginResponse): Storage {
    storage[AccessKey := resp.access][RefreshKey := resp.refresh][UsernameKey := resp.username][RoleKey := resp.role]
  }

  /** The storage after the four removals of a logout. */
  function ClearSession(storage: Storage): Storage {
    storage - SessionKeys
  }

  /** The login writes map the four keys to the response's fields and touch nothing else. */
  lemma {:induction false} StoreLoginWritesOnlySessionKeys(storage: Storage, resp: LoginResponse)
    ensures var s := StoreLogin(storage, resp);
            && s.Keys == storage.Keys + SessionKeys
            && s[AccessKey] == resp.access && s[RefreshKey] == resp.refresh
            && s[UsernameKey] == resp.username && s[RoleKey] == resp.role
            && forall k :: k in storage && k !in SessionKeys ==> s[k] == storage[k]
  {
  }

  /** Logging in and then out leaves the four keys absent and every other entry
      as it was before the login. */
  lemma {:induction false} LoginThenLogout(storage: Storage, resp: LoginResponse)
    ensures ClearSession(StoreLogin(storage, resp)) == ClearSession(storage)
    ensures forall k :: k in SessionKeys ==> k !in ClearSession(StoreLogin(storage, resp))
    ensures forall k :: k !in SessionKeys ==>
      GetItem(ClearSession(StoreLogin(storage, resp)), k) == GetItem(storage, k)
  {
    var after := ClearSession(StoreLogin(storage, resp));
    assert after.Keys == storage.Keys - SessionKeys;
  }

  /** A login with non-empty fields opens both guards; a logout closes both. */
  lemma {:induction false} GuardsFollowLoginAndLogout(storage: Storage, resp: LoginResponse)
    ensures resp.username != "" && resp.role != "" ==> NavbarGuardPasses(StoreLogin(storage, resp))
    ensures resp.access != "" ==> AuthHeaders(StoreLogin(storage, resp)) == Some(map["Authorization" := "Bearer " + resp.access])
    ensures !NavbarGuardPasses(ClearSession(storage))
    ensures AuthHeaders(ClearSession(storage)) == None
  {
    var s := StoreLogin(storage, resp);
    assert s[AccessKey] == resp.access && s[UsernameKey] == resp.username && s[RoleKey] == resp.role;
    assert UsernameKey !in ClearSession(storage);
  }

  /** The two guards test different keys: a storage with a user name and a role but
      no token passes the navbar's guard while the header builder redirects. */
  lemma GuardsAreIndependent()
    ensures exists s: Storage :: NavbarGuardPasses(s) && AuthHeaders(s).None?
  {
    var s := map[UsernameKey := "ada", RoleKey := "admin"];
    assert GetItem(s, UsernameKey) == Some("ada");
    assert NavbarGuardPasses(s) && AccessKey !in s;
  }

  /** The browser: its local storage and whether something assigned
      `window.location.href = "/login"`. */
  class Browser {
    var storage: Storage
    var redirectedToLogin: bool

    constructor (initial: Storage)
      ensures storage == initial && !redirectedToLogin
    {
      storage := initial;
      redirectedToLogin := false;
    }

    method RedirectToLogin()
      modifies this`redirectedToLogin
      ensures redirectedToLogin
    {
      redirectedToLogin := true;
    }

    method SetItem(key: string, value: string)
      modifies this`storage
      ensures storage == old(storage)[key := value]
    {
      storage := storage[key := value];
    }

    method RemoveItem(key: string)
      modifies this`storage
      ensures storage == old(storage) - {key}
    {
      storage := storage - {key};
    }

    /** `getAuthHeaders`: reads only the token, writes nothing to storage, and
      redirects exactly when it returns no config. */
    method GetAuthHeaders() returns (r: Option<Headers>)
      modifies this`redirectedToLogin
      ensures r == AuthHeaders(storage)
      ensures redirectedToLogin == (old(redirectedToLogin) || r.None?)
    {
      var token := GetItem(storage, AccessKey);
      if !Truthy(token) {
        RedirectToLogin();
        return None;
      }
      r := Some(map["Authorization" := "Bearer " + token.value]);
    }
  }

  /** The JSON body `loginUser` posts. */
  function LoginRequestBody(email: string, password: string): (body: map<string, string>)
    ensures body.Keys == {"email", "password"}
  {
    map["email" := email, "password" := password]
  }

  /** `loginUser`: post the credentials; once the post has succeeded, write the
      four fields and return the body unchanged. A failed post rethrows before
      any write. */
  method LoginUser<E>(browser: Browser, email: string, password: string, outcome: Outcome<LoginResponse, E>)
    returns (request: map<string, string>, result: Outcome<LoginResponse, E>)
    modifies browser`storage
    ensures request == LoginRequestBody(email, password)
    ensures result == outcome
    ensures outcome.Ok? ==> browser.storage == StoreLogin(old(browser.storage), outcome.body)
    ensures outcome.Err? ==> browser.storage == old(browser.storage)
  {
    request := LoginRequestBody(email, password);
    if outcome.Err? {
      return request, outcome;
    }
    var data := outcome.body;
    browser.SetItem(AccessKey, data.access);
    browser.SetItem(RefreshKey, data.refresh);
    browser.SetItem(UsernameKey, data.username);
    browser.SetItem(RoleKey, data.role);
    result := outcome;
  }

  /** The login body carries `email`, while `user_login` reads `username` from
      the request data: the backend finds no user name in it. */
  lemma LoginBodyLacksUsername(email: string, password: string)
    ensures Views.LoginCredentials(LoginRequestBody(email, password)) == (None, Some(password))
  {
    assert "username" !in LoginRequestBody(email, password);
  }

  // ---------------------------------------------------------------------------
  // The navbar

  const MarkerRole := "marker"

  /** The "Create Project" link is rendered iff the role state is "marker". */
  function CreateProjectLinkShown(role: Option<string>): bool {
    role == Some(MarkerRole)
  }

  /** The user name and role badge is rendered iff both are truthy. */
  function BadgeShown(username: Option<string>, role: Option<string>): bool {
    Truthy(username) && Truthy(role)
  }

  /** The roles the backend can store or report: its three choices, the model's
      default 'user', and the login view's "unknown". */
  const BackendRoles: set<string> := {"admin", "maker", "checker", "user", Views.UnknownRole}

  /** The backend spells the role 'maker' and the navbar tests "marker", so no role
      the backend hands out shows the "Create Project" link. */
  lemma {:induction false} NoBackendRoleShowsCreateProject(role: string)
    requires role in BackendRoles
    ensures !CreateProjectLinkShown(Some(role))
  {
    assert MarkerRole[1] == 'a' && MarkerRole[2] == 'r';
    assert "maker"[2] == 'k';
  }

  class Navbar {
    var username: Option<string>
    var role: Option<string>

    constructor ()
      ensures username == None && role == None
    {
      username := None;
      role := None;
    }

    /** The mount effect: a missing or empty user name or role redirects and leaves
        the state as it was; otherwise the state takes the stored values. */
    method Mount(browser: Browser)
      modifies this, browser`redirectedToLogin
      ensures NavbarGuardPasses(browser.storage) ==>
        && username == GetItem(browser.storage, UsernameKey)
        && role == GetItem(browser.storage, RoleKey)
        && browser.redirectedToLogin == old(browser.redirectedToLogin)
      ensures !NavbarGuardPasses(browser.storage) ==>
        username == old(username) && role == old(role) && browser.redirectedToLogin
    {
      var storedUsername := GetItem(browser.storage, UsernameKey);
      var storedRole := GetItem(browser.storage, RoleKey);
      if !Truthy(storedUsername) || !Truthy(storedRole) {
        browser.RedirectToLogin();
        return;
      }
      username := storedUsername;
      role := storedRole;
    }

    /** `handleLogout`: remove the four keys, then go to /login. */
    method Logout(browser: Browser)
      modifies browser
      ensures browser.storage == ClearSession(old(browser.storage))
      ensures browser.redirectedToLogin
    {
      browser.RemoveItem(AccessKey);
      browser.RemoveItem(RefreshKey);
      browser.RemoveItem(UsernameKey);
      browser.RemoveItem(RoleKey);
      browser.RedirectToLogin();
    }

    function ShowsCreateProject(): bool
      reads this
    {
      CreateProjectLinkShown(role)
    }

    function ShowsBadge(): bool
      reads this
    {
      BadgeShown(username, role)
    }
  }

  /** Mounting after a login with non-empty fields shows the badge and redirects
      nowhere; mounting after a logout redirects and shows no badge. */
  method LoginMountLogoutMount(initial: Storage, resp: LoginResponse)
    returns (badgeAfterLogin: bool, badgeAfterLogout: bool, redirectedBeforeLogout: bool, redirectedAfterLogout: bool)
    requires resp.username != "" && resp.role != ""
    ensures badgeAfterLogin && !redirectedBeforeLogout
    ensures !badgeAfterLogout && redirectedAfterLogout
  {
    var browser := new Browser(initial);
    var _, _ := LoginUser<()>(browser, "ada@example.org", "secret", Ok(resp));
    GuardsFollowLoginAndLogout(initial, resp);
    var navbar := new Navbar();
    navbar.Mount(browser);
    badgeAfterLogin := navbar.ShowsBadge();
    redirectedBeforeLogout := browser.redirectedToLogin;
    navbar.Logout(browser);
    GuardsFollowLoginAndLogout(browser.storage, resp);
    var reloaded := new Navbar();
    reloaded.Mount(browser);
    badgeAfterLogout := reloaded.ShowsBadge();
    redirectedAfterLogout := browser.redirectedToLogin;
  }
}
