/** The session service: the bearer token persisted in local storage and
    the current user decoded from it. */
module Session {
  import opened Common

  /** A user object.  `User` is decoded from a token; `Registered` is
      the object the auth store builds from a registration form, which
      has no identifier. */
  datatype User =
    | User(userId: int, username: string, email: string, role: string)
    | Registered(username: string, email: string, role: string)

  /** The claims of a token's payload segment as the browser parses them,
      or `Malformed` when splitting, base64 or JSON parsing throws. */
  datatype TokenPayload =
    | Malformed
    | Claims(nameid: Option<int>, name: Option<string>, email: Option<string>, role: Option<string>)

  /** The local-storage key of the token. */
  const TokenKey := "token"

  /** The role of a token that names none. */
  const DefaultRole := "User"

  /** The token decoder shared by the service and the auth store: missing
      or falsy claims default to identifier 0, empty name and email and
      role "User"; a malformed token yields no user. */
  function DecodeUser(p: TokenPayload): (u: Option<User>)
    ensures u.None? <==> p.Malformed?
    ensures u.Some? ==> u.value.User? && u.value.role != ""
    ensures u.Some? ==> u.value.userId == (if p.nameid.Some? then p.nameid.value else 0)
    ensures u.Some? ==> u.value.username == (if p.name.Some? then p.name.value else "")
    ensures u.Some? ==> u.value.email == (if p.email.Some? then p.email.value else "")
    ensures u.Some? && p.role.Some? && p.role.value != "" ==> u.value.role == p.role.value
    ensures u.Some? && (p.role.None? || p.role.value == "") ==> u.value.role == DefaultRole
  {
    match p
    case Malformed => None
    case Claims(nameid, name, email, role) =>
      Some(User(if nameid.Some? then nameid.value else 0,
                OrDefault(name, ""), OrDefault(email, ""), OrDefault(role, DefaultRole)))
  }

  /** The claims a token carries for a decoded user. */
  function ClaimsOf(u: User): TokenPayload
    requires u.User?
  {
    Claims(Some(u.userId), Some(u.username), Some(u.email), Some(u.role))
  }

  /** Decoding inverts encoding for every user whose role is not empty. */
  lemma DecodeClaimsOf(u: User)
    requires u.User? && u.role != ""
    ensures DecodeUser(ClaimsOf(u)) == Some(u)
  {
  }

  class AuthService {
    /** `JSON.parse(atob(token.split('.')[1]))`, supplied by the browser. */
    const parse: string -> TokenPayload
    /** Local storage. */
    var storage: map<string, string>
    /** The value of the current-user subject. */
    var currentUser: Option<User>

    /** The user the decoder yields for a stored token, or `None`. */
    ghost function StoredUser(store: map<string, string>): Option<User>
      reads this
    {
      if TokenKey in store && store[TokenKey] != "" then DecodeUser(parse(store[TokenKey])) else None
    }

    /** Construction hydrates the current user from a stored non-empty
        token; otherwise (or when it does not decode) there is none. */
    constructor (storage: map<string, string>, parse: string -> TokenPayload)
      ensures this.storage == storage && this.parse == parse
      ensures currentUser == StoredUser(storage)
    {
      this.parse := parse;
      this.storage := storage;
      currentUser := None;
      new;
      LoadUserFromStorage();
    }

    method LoadUserFromStorage()
      modifies this`currentUser
      ensures StoredUser(storage).Some? ==> currentUser == StoredUser(storage)
      ensures StoredUser(storage).None? ==> currentUser == old(currentUser)
    {
      if TokenKey in storage && storage[TokenKey] != "" {
        DecodeAndStoreUser(storage[TokenKey]);
      }
    }

    /** A token that decodes replaces the current user; one that does not
        is logged and leaves the current user as it was. */
    method DecodeAndStoreUser(token: string)
      modifies this`currentUser
      ensures DecodeUser(parse(token)).Some? ==> currentUser == DecodeUser(parse(token))
      ensures DecodeUser(parse(token)).None? ==> currentUser == old(currentUser)
    {
      match DecodeUser(parse(token)) {
        case Some(u) => currentUser := Some(u);
        case None =>
      }
    }

    /** The login request's side effect: a returned token is stored under
        "token" and then decoded into the current user.  A failed request
        changes nothing. */
    method Login(response: Outcome<string>)
      modifies this`storage, this`currentUser
      ensures response.Success? ==> storage == old(storage)[TokenKey := response.value]
      ensures response.Success? && DecodeUser(parse(response.value)).Some? ==>
                currentUser == DecodeUser(parse(response.value))
      ensures response.Success? && DecodeUser(parse(response.value)).None? ==>
                currentUser == old(currentUser)
      ensures response.Failure? ==> storage == old(storage) && currentUser == old(currentUser)
    {
      if response.Success? {
        storage := storage[TokenKey := response.value];
        DecodeAndStoreUser(response.value);
      }
    }

    /** The token is removed (other keys stay) and there is no user. */
    method Logout()
      modifies this`storage, this`currentUser
      ensures storage == old(storage) - {TokenKey}
      ensures TokenKey !in storage
      ensures currentUser == None
    {
      storage := storage - {TokenKey};
      currentUser := None;
    }

    /** A non-empty token is stored. */
    method IsAuthenticated() returns (b: bool)
      ensures b <==> TokenKey in storage && storage[TokenKey] != ""
      ensures b ==> StoredUser(storage) == DecodeUser(parse(storage[TokenKey]))
    {
      b := TokenKey in storage && storage[TokenKey] != "";
    }

    /** The stored token exactly, or `None`. */
    method GetToken() returns (t: Option<string>)
      ensures t.Some? <==> TokenKey in storage
      ensures t.Some? ==> t.value == storage[TokenKey]
    {
      t := if TokenKey in storage then Some(storage[TokenKey]) else None;
    }

    method GetCurrentUser() returns (u: Option<User>)
      ensures u == currentUser
    {
      u := currentUser;
    }
  }
}
