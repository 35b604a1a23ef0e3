/** The auth store: the session record the views read (user, token,
    authenticated flag, role, loading flag, error), updated in place by
    the login, registration and logout handlers. */
module AuthStore {
  import opened Common
  import opened Session

  /** The registration form; the password only travels to the backend. */
  datatype RegisterForm = RegisterForm(username: string, email: string, password: string, role: string)

  /** The error a login records when the returned token does not decode. */
  const InvalidToken := "Invalid token"

  class AuthState {
    const service: AuthService

    var user: Option<User>
    var token: Option<string>
    var isAuthenticated: bool
    var role: Option<string>
    var loading: bool
    var error: Option<string>

    /** All six fields hold their declared defaults. */
    predicate IsInitial()
      reads this
    {
      user == None && token == None && !isAuthenticated && role == None && !loading && error == None
    }

    constructor (service: AuthService)
      ensures this.service == service && IsInitial()
    {
      this.service := service;
      user, token, isAuthenticated, role := None, None, false, None;
      loading, error := false, None;
    }

    /** The `Login` and `Register` actions first mark the store busy. */
    method Begin()
      modifies this
      ensures loading && error == None
      ensures user == old(user) && token == old(token) && isAuthenticated == old(isAuthenticated) && role == old(role)
    {
      loading := true;
      error := None;
    }

    /** The session becomes authenticated with the decoded user, its
        token and its role.  The user is not optional here: the source
        reads its role without a null check. */
    method LoginSuccess(t: string, u: User)
      modifies this
      ensures user == Some(u) && token == Some(t) && isAuthenticated && role == Some(u.role)
      ensures !loading && error == None
    {
      user, token, isAuthenticated, role := Some(u), Some(t), true, Some(u.role);
      loading, error := false, None;
    }

    /** `LoginFailure` and `RegisterFailure`: the store stops loading and
        records the message; user, token, flag and role are kept. */
    method Fail(message: string)
      modifies this
      ensures !loading && error == Some(message)
      ensures user == old(user) && token == old(token) && isAuthenticated == old(isAuthenticated) && role == old(role)
    {
      loading := false;
      error := Some(message);
    }

    /** The login action as written.  The service stores the token and
        decodes it; the store decodes it again and dispatches
        `LoginSuccess` with whatever it got.  When the token does not
        decode, that handler dereferences a null user and throws
        (`crashed`): the store is left busy with no error and the old
        session, although the token is already persisted. */
    method Login(response: Outcome<string>) returns (crashed: bool)
      modifies this, service
      ensures response.Success? ==> service.storage == old(service.storage)[TokenKey := response.value]
      ensures response.Failure? ==> service.storage == old(service.storage) && service.currentUser == old(service.currentUser)
      ensures crashed <==> response.Success? && DecodeUser(service.parse(response.value)).None?
      ensures response.Success? && !crashed ==>
                var u := DecodeUser(service.parse(response.value)).value;
                && user == Some(u) && token == Some(response.value) && isAuthenticated && role == Some(u.role)
                && !loading && error == None && service.currentUser == Some(u)
      ensures response.Failure? ==>
                !loading && error == Some(response.message)
                && user == old(user) && token == old(token) && isAuthenticated == old(isAuthenticated) && role == old(role)
      ensures crashed ==>
                loading && error == None && service.currentUser == old(service.currentUser)
                && user == old(user) && token == old(token) && isAuthenticated == old(isAuthenticated) && role == old(role)
    {
      Begin();
      service.Login(response);
      crashed := false;
      match response {
        case Success(t) =>
          match DecodeUser(service.parse(t)) {
            case Some(u) => LoginSuccess(t, u);
            case None => crashed := true;
          }
        case Failure(message) => Fail(message);
      }
    }

    /** The login action with the null user routed to the failure
        handler: every login ends with the store no longer busy, and it
        is authenticated exactly when a token came back and decoded. */
    method LoginChecked(response: Outcome<string>)
      modifies this, service
      ensures response.Success? ==> service.storage == old(service.storage)[TokenKey := response.value]
      ensures !loading
      ensures response.Success? && DecodeUser(service.parse(response.value)).Some? ==>
                var u := DecodeUser(service.parse(response.value)).value;
                && user == Some(u) && token == Some(response.value) && isAuthenticated && role == Some(u.role)
                && error == None
      ensures response.Success? && DecodeUser(service.parse(response.value)).None? ==>
                error == Some(InvalidToken)
                && user == old(user) && token == old(token) && isAuthenticated == old(isAuthenticated) && role == old(role)
      ensures response.Failure? ==>
                error == Some(response.message)
                && user == old(user) && token == old(token) && isAuthenticated == old(isAuthenticated) && role == old(role)
      ensures response.Success? && DecodeUser(service.parse(response.value)).Some? ==>
                service.currentUser == DecodeUser(service.parse(response.value))
      ensures response.Success? && DecodeUser(service.parse(response.value)).None? ==>
                service.currentUser == old(service.currentUser)
      ensures response.Failure? ==>
                service.storage == old(service.storage) && service.currentUser == old(service.currentUser)
    {
      Begin();
      service.Login(response);
      match response {
        case Success(t) =>
          match DecodeUser(service.parse(t)) {
            case Some(u) => LoginSuccess(t, u);
            case None => Fail(InvalidToken);
          }
        case Failure(message) => Fail(message);
      }
    }

    /** Registration returns no token: the stored user is built from the
        form alone; token, flag and role are not touched. */
    method RegisterSuccess(u: User)
      modifies this
      ensures user == Some(u) && !loading && error == None
      ensures token == old(token) && isAuthenticated == old(isAuthenticated) && role == old(role)
    {
      user := Some(u);
      loading, error := false, None;
    }

    /** The register action and the handler of its outcome. */
    method Register(form: RegisterForm, response: Outcome<()>)
      modifies this
      ensures !loading
      ensures token == old(token) && isAuthenticated == old(isAuthenticated) && role == old(role)
      ensures response.Success? ==>
                user == Some(Registered(form.username, form.email, form.role)) && error == None
      ensures response.Failure? ==> user == old(user) && error == Some(response.message)
    {
      Begin();
      match response {
        case Success(_) => RegisterSuccess(Registered(form.username, form.email, form.role));
        case Failure(message) => Fail(message);
      }
    }

    /** The service forgets the token and the user, and every field goes
        back to its default, with no network round trip. */
    method Logout()
      modifies this, service
      ensures IsInitial()
      ensures service.storage == old(service.storage) - {TokenKey} && service.currentUser == None
    {
      service.Logout();
      user, token, isAuthenticated, role := None, None, false, None;
      loading, error := false, None;
    }

    /** Authenticated exactly when a user is given; the role is the user's
        unless that is empty (falsy), and the token is kept. */
    method SetUser(u: Option<User>)
      modifies this
      ensures user == u && (isAuthenticated <==> u.Some?)
      ensures role == (if u.Some? && u.value.role != "" then Some(u.value.role) else None)
      ensures token == old(token) && loading == old(loading) && error == old(error)
    {
      user := u;
      isAuthenticated := u.Some?;
      role := if u.Some? then (if u.value.role != "" then Some(u.value.role) else None) else None;
    }

    /** Only the error slot is cleared. */
    method ClearAuth()
      modifies this
      ensures error == None
      ensures user == old(user) && token == old(token) && isAuthenticated == old(isAuthenticated)
      ensures role == old(role) && loading == old(loading)
    {
      error := None;
    }
  }

  /** A login whose token does not decode leaves the store busy, with no
      error and no session, while the token sits in local storage. */
  method MalformedTokenLogin() returns (crashed: bool, loading: bool, error: Option<string>, stored: Option<string>)
    ensures crashed && loading && error == None
    ensures stored == Some("not-a-jwt")
  {
    var service := new AuthService(map[], (t: string) => Malformed);
    var auth := new AuthState(service);
    crashed := auth.Login(Success("not-a-jwt"));
    assert !auth.isAuthenticated && auth.user == None;
    loading, error := auth.loading, auth.error;
    stored := service.GetToken();
  }

  /** The registration of "u1" stores only the form's fields: no token
      and no authenticated flag. */
  method RegisterU1() returns (user: Option<User>, token: Option<string>, authenticated: bool)
    ensures user == Some(Registered("u1", "u1@x.com", "User"))
    ensures token == None && !authenticated
  {
    var service := new AuthService(map[], (t: string) => Malformed);
    var auth := new AuthState(service);
    auth.Register(RegisterForm("u1", "u1@x.com", "secret", "User"), Success(()));
    user, token, authenticated := auth.user, auth.token, auth.isAuthenticated;
  }
}
