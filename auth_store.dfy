/** The front end's session store, frontend/stores/auth.ts: the signed-in
    user and the two tokens, mirrored into three localStorage entries and
    into the API client's bearer token. Each server call is a parameter
    holding the server's answer; `client` says whether the store runs in
    the browser (on the server, storage is never touched). */
module AuthStore {
  import opened Common

  datatype User = User(id: string, email: string, name: string, role: Role, avatar: Option<string>,
                       bio: Option<string>, isEmailVerified: bool, createdAt: string)

  datatype AuthResponse = AuthResponse(user: User, accessToken: string, refreshToken: string)
  datatype AuthTokens = AuthTokens(accessToken: string, refreshToken: string)
  datatype RegisterResponse = RegisterResponse(user: User, message: string)

  /** What the API client throws. */
  datatype ApiError = ApiError(message: string, status: Option<int>)

  /** The server's answer to one call. */
  datatype Reply<T> = Answer(value: T) | Failed(err: ApiError)

  /** How an action ends: normally, or by rethrowing the client's error. */
  datatype Completion = Done | Threw(err: ApiError)

  /** The text under `auth_user`: what `JSON.stringify` wrote for a user,
      or some other text, which `JSON.parse` rejects. */
  datatype StoredUser = UserJson(user: User) | OtherText(text: string)

  const AccessTokenKey := "auth_access_token"
  const RefreshTokenKey := "auth_refresh_token"
  const UserKey := "auth_user"

  const RegistrationFailed := "Registration failed"
  const LoginFailed := "Login failed"
  const FetchUserFailed := "Failed to fetch user"
  const VerificationFailed := "Email verification failed"
  const ResendFailed := "Failed to resend verification email"
  const ResetEmailFailed := "Failed to send reset email"
  const ResetFailed := "Password reset failed"

  // ------------------------------------------------------------ truthiness

  predicate StoredTruthy(s: Option<StoredUser>)
  {
    s.Some? && (s.value.UserJson? || s.value.text != "")
  }

  /** `err.message || fallback`. */
  function ErrorText(err: ApiError, fallback: string): (t: string)
    ensures err.message != "" ==> t == err.message
    ensures err.message == "" ==> t == fallback
  {
    if err.message != "" then err.message else fallback
  }

  // ----------------------------------------------------------------- roles

  predicate IsAdminRole(u: Option<User>)
  {
    u.Some? && u.value.role == ADMIN
  }

  predicate IsInstructorRole(u: Option<User>)
  {
    u.Some? && (u.value.role == INSTRUCTOR || u.value.role == ADMIN)
  }

  predicate IsLearnerRole(u: Option<User>)
  {
    u.Some? && u.value.role == LEARNER
  }

  /** With no user no role flag holds; with a user, the learner flag and
      the instructor flag split the roles between them, and every admin
      counts as an instructor. */
  lemma RoleFlags(u: Option<User>)
    ensures u.None? ==> !IsAdminRole(u) && !IsInstructorRole(u) && !IsLearnerRole(u)
    ensures u.Some? ==> (IsLearnerRole(u) <==> !IsInstructorRole(u))
    ensures IsAdminRole(u) ==> IsInstructorRole(u) && !IsLearnerRole(u)
    ensures IsInstructorRole(u) && !IsAdminRole(u) <==> u.Some? && u.value.role == INSTRUCTOR
  {
  }

  // --------------------------------------------------------------- storage

  /** What `initFromStorage` finds: nothing usable, a whole session, or
      two tokens and a user text that does not parse. */
  datatype Restore =
    | NothingStored
    | Restored(user: User, accessToken: string, refreshToken: string)
    | ParseFailed(accessToken: string, refreshToken: string)

  function RestoreOf(access: Option<string>, refresh: Option<string>, stored: Option<StoredUser>): (r: Restore)
    ensures r.Restored? ==> access == Some(r.accessToken) && refresh == Some(r.refreshToken)
                            && stored == Some(UserJson(r.user))
    ensures r.NothingStored? <==> !(Truthy(access) && Truthy(refresh) && StoredTruthy(stored))
    ensures !r.NothingStored? ==> r.accessToken != "" && r.refreshToken != ""
  {
    if Truthy(access) && Truthy(refresh) && StoredTruthy(stored) then
      match stored.value
      case UserJson(u) => Restored(u, access.value, refresh.value)
      case OtherText(_) => ParseFailed(access.value, refresh.value)
    else NothingStored
  }

  /** The three entries after `saveToStorage`: written only when all
      three values are there. */
  function SaveOf(user: Option<User>, access: Option<string>, refresh: Option<string>,
                  entries: (Option<string>, Option<string>, Option<StoredUser>)): (r: (Option<string>, Option<string>, Option<StoredUser>))
    ensures Truthy(access) && Truthy(refresh) && user.Some? ==> r == (access, refresh, Some(UserJson(user.value)))
    ensures !(Truthy(access) && Truthy(refresh) && user.Some?) ==> r == entries
  {
    if Truthy(access) && Truthy(refresh) && user.Some? then (access, refresh, Some(UserJson(user.value)))
    else entries
  }

  /** A session written by `saveToStorage` is the one `initFromStorage`
      reads back. */
  lemma SaveThenRestore(u: User, access: string, refresh: string,
                        entries: (Option<string>, Option<string>, Option<StoredUser>))
    requires access != "" && refresh != ""
    ensures var e := SaveOf(Some(u), Some(access), Some(refresh), entries);
            RestoreOf(e.0, e.1, e.2) == Restored(u, access, refresh)
  {
  }

  /** After `clearStorage` nothing is restored. */
  lemma ClearThenRestore()
    ensures RestoreOf(None, None, None) == NothingStored
  {
  }

  class Store {
    const client: bool
    var user: Option<User>
    var accessToken: Option<string>
    var refreshToken: Option<string>
    var loading: bool
    var error: Option<string>
    /** The API client's bearer token. */
    var apiToken: Option<string>
    /** The three localStorage entries. */
    var storedAccess: Option<string>
    var storedRefresh: Option<string>
    var storedUser: Option<StoredUser>

    /** A store before `initFromStorage`, over the given storage. */
    constructor(client: bool, storedAccess: Option<string>, storedRefresh: Option<string>, storedUser: Option<StoredUser>)
      ensures this.client == client && user.None? && accessToken.None? && refreshToken.None?
      ensures !loading && error.None? && apiToken.None?
      ensures this.storedAccess == storedAccess && this.storedRefresh == storedRefresh && this.storedUser == storedUser
    {
      this.client := client;
      user := None;
      accessToken := None;
      refreshToken := None;
      loading := false;
      error := None;
      apiToken := None;
      this.storedAccess := storedAccess;
      this.storedRefresh := storedRefresh;
      this.storedUser := storedUser;
    }

    function Entries(): (Option<string>, Option<string>, Option<StoredUser>)
      reads this
    {
      (storedAccess, storedRefresh, storedUser)
    }

    /** `isAuthenticated`: a user and a non-empty access token. */
    predicate IsAuthenticated()
      reads this
    {
      user.Some? && Truthy(accessToken)
    }

    /** `initFromStorage()`: the tokens are taken first, so a user text
        that does not parse leaves them set and the user as it was. */
    method InitFromStorage() returns (threw: bool)
      modifies this
      ensures Entries() == old(Entries()) && loading == old(loading) && error == old(error)
      ensures var r := RestoreOf(old(storedAccess), old(storedRefresh), old(storedUser));
              if !client || r.NothingStored? then
                !threw && user == old(user) && accessToken == old(accessToken)
                && refreshToken == old(refreshToken) && apiToken == old(apiToken)
              else if r.Restored? then
                !threw && user == Some(r.user) && accessToken == Some(r.accessToken)
                && refreshToken == Some(r.refreshToken) && apiToken == Some(r.accessToken)
              else
                threw && user == old(user) && accessToken == Some(r.accessToken)
                && refreshToken == Some(r.refreshToken) && apiToken == old(apiToken)
    {
      threw := false;
      if client {
        if Truthy(storedAccess) && Truthy(storedRefresh) && StoredTruthy(storedUser) {
          accessToken := storedAccess;
          refreshToken := storedRefresh;
          match storedUser.value {
            case UserJson(u) =>
              user := Some(u);
              apiToken := storedAccess;
            case OtherText(_) =>
              threw := true;
          }
        }
      }
    }

    /** `saveToStorage()`. */
    method SaveToStorage()
      modifies this
      ensures user == old(user) && accessToken == old(accessToken) && refreshToken == old(refreshToken)
      ensures loading == old(loading) && error == old(error) && apiToken == old(apiToken)
      ensures Entries() == if client then SaveOf(user, accessToken, refreshToken, old(Entries())) else old(Entries())
    {
      if client && Truthy(accessToken) && Truthy(refreshToken) && user.Some? {
        storedAccess := accessToken;
        storedRefresh := refreshToken;
        storedUser := Some(UserJson(user.value));
      }
    }

    /** `clearStorage()`. */
    method ClearStorage()
      modifies this
      ensures user == old(user) && accessToken == old(accessToken) && refreshToken == old(refreshToken)
      ensures loading == old(loading) && error == old(error) && apiToken == old(apiToken)
      ensures Entries() == if client then (None, None, None) else old(Entries())
    {
      if client {
        storedAccess := None;
        storedRefresh := None;
        storedUser := None;
      }
    }

    /** `setAuth(data)`. */
    method SetAuth(data: AuthResponse)
      modifies this
      ensures user == Some(data.user) && accessToken == Some(data.accessToken)
      ensures refreshToken == Some(data.refreshToken) && apiToken == Some(data.accessToken)
      ensures loading == old(loading) && error == old(error)
      ensures Entries() == if client then SaveOf(user, accessToken, refreshToken, old(Entries())) else old(Entries())
      ensures IsAuthenticated() <==> data.accessToken != ""
    {
      user := Some(data.user);
      accessToken := Some(data.accessToken);
      refreshToken := Some(data.refreshToken);
      apiToken := Some(data.accessToken);
      SaveToStorage();
    }

    /** `clearAuth()`. */
    method ClearAuth()
      modifies this
      ensures user.None? && accessToken.None? && refreshToken.None? && apiToken.None?
      ensures loading == old(loading) && error == old(error)
      ensures Entries() == if client then (None, None, None) else old(Entries())
      ensures !IsAuthenticated()
    {
      user := None;
      accessToken := None;
      refreshToken := None;
      apiToken := None;
      ClearStorage();
    }

    /** `register(data)`: on success only the user is set; the tokens
        wait for the e-mail to be verified. */
    method Register(reply: Reply<RegisterResponse>) returns (r: Completion)
      modifies this
      ensures !loading
      ensures accessToken == old(accessToken) && refreshToken == old(refreshToken) && apiToken == old(apiToken)
      ensures Entries() == old(Entries())
      ensures reply.Answer? ==> r == Done && user == Some(reply.value.user) && error.None?
      ensures reply.Failed? ==> r == Threw(reply.err) && user == old(user)
                                && error == Some(ErrorText(reply.err, RegistrationFailed))
    {
      loading := true;
      error := None;
      match reply {
        case Answer(response) =>
          user := Some(response.user);
          r := Done;
        case Failed(err) =>
          error := Some(ErrorText(err, RegistrationFailed));
          r := Threw(err);
      }
      loading := false;
    }

    /** `login(credentials)`. */
    method Login(reply: Reply<AuthResponse>) returns (r: Completion)
      modifies this
      ensures !loading
      ensures reply.Answer? ==>
                r == Done && error.None? && user == Some(reply.value.user)
                && accessToken == Some(reply.value.accessToken) && refreshToken == Some(reply.value.refreshToken)
                && apiToken == Some(reply.value.accessToken)
                && Entries() == if client then SaveOf(user, accessToken, refreshToken, old(Entries())) else old(Entries())
      ensures reply.Failed? ==>
                r == Threw(reply.err) && error == Some(ErrorText(reply.err, LoginFailed))
                && user == old(user) && accessToken == old(accessToken) && refreshToken == old(refreshToken)
                && apiToken == old(apiToken) && Entries() == old(Entries())
    {
      loading := true;
      error := None;
      match reply {
        case Answer(response) =>
          SetAuth(response);
          r := Done;
        case Failed(err) =>
          error := Some(ErrorText(err, LoginFailed));
          r := Threw(err);
      }
      loading := false;
    }

    /** `logout()`: the server is told only when signed in, and whatever
        it answers the session ends. */
    method Logout(reply: Reply<()>) returns (called: bool)
      modifies this
      ensures called == old(IsAuthenticated())
      ensures user.None? && accessToken.None? && refreshToken.None? && apiToken.None?
      ensures Entries() == if client then (None, None, None) else old(Entries())
      ensures !loading && error.None? && !IsAuthenticated()
    {
      loading := true;
      error := None;
      called := IsAuthenticated();
      ClearAuth();
      loading := false;
    }

    /** `refreshAccessToken()`: without a refresh token nothing happens;
        a failed refresh ends the session. */
    method RefreshAccessToken(reply: Reply<AuthTokens>) returns (ok: bool)
      modifies this
      ensures loading == old(loading) && error == old(error)
      ensures !Truthy(old(refreshToken)) ==>
                !ok && user == old(user) && accessToken == old(accessToken) && refreshToken == old(refreshToken)
                && apiToken == old(apiToken) && Entries() == old(Entries())
      ensures Truthy(old(refreshToken)) && reply.Answer? ==>
                ok && user == old(user) && accessToken == Some(reply.value.accessToken)
                && refreshToken == Some(reply.value.refreshToken) && apiToken == Some(reply.value.accessToken)
                && Entries() == if client then SaveOf(user, accessToken, refreshToken, old(Entries())) else old(Entries())
      ensures Truthy(old(refreshToken)) && reply.Failed? ==>
                !ok && user.None? && accessToken.None? && refreshToken.None? && apiToken.None?
                && Entries() == if client then (None, None, None) else old(Entries())
    {
      if !Truthy(refreshToken) {
        return false;
      }
      match reply {
        case Answer(tokens) =>
          accessToken := Some(tokens.accessToken);
          refreshToken := Some(tokens.refreshToken);
          apiToken := Some(tokens.accessToken);
          SaveToStorage();
          ok := true;
        case Failed(_) =>
          ClearAuth();
          ok := false;
      }
    }

    /** `fetchUser()`: `me[k]` is the server's answer to the k-th
        `/auth/me` call and `refresh[k]` to the refresh that follows it
        when that call is answered with 401. When the answers run out
        the call is still pending, which ends the model's run. */
    method FetchUser(me: seq<Reply<User>>, refresh: seq<Reply<AuthTokens>>) returns (r: Option<Completion>)
      modifies this
      decreases |me|
      ensures !Truthy(old(accessToken)) ==> r == Some(Done) && user == old(user) && error == old(error)
                                             && accessToken == old(accessToken) && Entries() == old(Entries())
      ensures Truthy(old(accessToken)) && me != [] && me[0].Answer? ==>
                r == Some(Done) && user == Some(me[0].value) && error.None? && !loading
                && accessToken == old(accessToken) && refreshToken == old(refreshToken) && apiToken == old(apiToken)
                && Entries() == if client then SaveOf(user, accessToken, refreshToken, old(Entries())) else old(Entries())
      ensures Truthy(old(accessToken)) && me != [] && me[0].Failed? && me[0].err.status != Some(401) ==>
                r == Some(Threw(me[0].err)) && error == Some(ErrorText(me[0].err, FetchUserFailed)) && !loading
                && user == old(user) && accessToken == old(accessToken) && Entries() == old(Entries())
      ensures Truthy(old(accessToken)) && me != [] && me[0].Failed? && me[0].err.status == Some(401)
              && (!Truthy(old(refreshToken)) || (refresh != [] && refresh[0].Failed?)) ==>
                r == Some(Threw(me[0].err)) && error == Some(ErrorText(me[0].err, FetchUserFailed)) && !loading
                && user.None? && accessToken.None? && refreshToken.None? && apiToken.None?
      ensures Truthy(old(accessToken)) && Truthy(old(refreshToken)) && |me| >= 2 && me[0].Failed?
              && me[0].err.status == Some(401) && refresh != [] && refresh[0].Answer?
              && refresh[0].value.accessToken != "" && me[1].Answer? ==>
                r == Some(Done) && error.None? && !loading && user == Some(me[1].value)
                && accessToken == Some(refresh[0].value.accessToken)
                && refreshToken == Some(refresh[0].value.refreshToken)
                && apiToken == Some(refresh[0].value.accessToken)
    {
      if !Truthy(accessToken) {
        return Some(Done);
      }
      if me == [] {
        loading := true;
        error := None;
        return None;
      }
      loading := true;
      error := None;
      match me[0] {
        case Answer(u) =>
          user := Some(u);
          SaveToStorage();
          r := Some(Done);
        case Failed(err) =>
          if err.status == Some(401) {
            if Truthy(refreshToken) && refresh == [] {
              // the refresh call is still waiting for its answer
              return None;
            }
            var refreshed := RefreshAccessToken(if refresh == [] then Failed(err) else refresh[0]);
            if refreshed {
              r := FetchUser(me[1..], refresh[1..]);
              loading := false;
              return r;
            }
            ClearAuth();
          }
          error := Some(ErrorText(err, FetchUserFailed));
          r := Some(Threw(err));
      }
      loading := false;
    }

    /** `verifyEmail`, `resendVerification`, `forgotPassword` and
        `resetPassword`: one call whose failure is recorded under the
        action's own fallback text and rethrown. */
    method Request(reply: Reply<()>, fallback: string) returns (r: Completion)
      modifies this
      ensures !loading
      ensures user == old(user) && accessToken == old(accessToken) && refreshToken == old(refreshToken)
      ensures apiToken == old(apiToken) && Entries() == old(Entries())
      ensures reply.Answer? ==> r == Done && error.None?
      ensures reply.Failed? ==> r == Threw(reply.err) && error == Some(ErrorText(reply.err, fallback))
    {
      loading := true;
      error := None;
      if reply.Failed? {
        error := Some(ErrorText(reply.err, fallback));
        r := Threw(reply.err);
      } else {
        r := Done;
      }
      loading := false;
    }
  }

  /** A session set in one store is the session a new store restores from
      the same browser storage. */
  method ReloadKeepsSession(a: Store, data: AuthResponse) returns (b: Store)
    requires a.client && data.accessToken != "" && data.refreshToken != ""
    modifies a
    ensures fresh(b)
    ensures b.user == Some(data.user) && b.accessToken == Some(data.accessToken)
    ensures b.refreshToken == Some(data.refreshToken) && b.IsAuthenticated()
  {
    a.SetAuth(data);
    b := new Store(true, a.storedAccess, a.storedRefresh, a.storedUser);
    var threw := b.InitFromStorage();
  }

  /** After logging out, a reload restores nothing. */
  method LogoutThenReload(a: Store, reply: Reply<()>) returns (b: Store)
    requires a.client
    modifies a
    ensures fresh(b) && !b.IsAuthenticated() && b.user.None?
  {
    var called := a.Logout(reply);
    b := new Store(true, a.storedAccess, a.storedRefresh, a.storedUser);
    var threw := b.InitFromStorage();
  }
}
