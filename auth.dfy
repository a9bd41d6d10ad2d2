/**
 * The session hook (`hooks/useauth.js`): the signed-in user and the token, the
 * derived `isAuthenticated` / `isAdmin`, and the mock login, logout, registration
 * and profile update.  A request's `setLoading(true)` before its delay is
 * `BeginRequest`; the rest of the request is the method named after it.
 */
module Session {
  import opened Js

  /** A user record: its own properties by name. */
  type Profile = map<string, Value>

  /** What `login`, `register` and `updateProfile` resolve to. */
  datatype AuthResult = AuthResult(success: bool, user: Profile)

  /** The token prefix; the mock appends the clock reading. */
  const TokenPrefix := "mock-jwt-token-"

  /** `'mock-jwt-token-' + Date.now()` with the clock reading as a parameter. */
  function MockToken(now: nat): (t: string)
    ensures |t| > |TokenPrefix| && t[..|TokenPrefix|] == TokenPrefix
    ensures ParseInt(t[|TokenPrefix|..]) == FromInt(now)
  {
    var t := TokenPrefix + DecimalString(now);
    assert t[|TokenPrefix|..] == DecimalString(now);
    ParseIntOfDecimalString(now);
    t
  }

  /** The user the mock login signs in: always the administrator, with the entered email. */
  function LoginUser(credentials: Profile): (u: Profile)
    ensures u.Keys == {"id", "name", "email", "role"}
    ensures u["role"] == Str("admin") && u["id"] == Num(FromInt(1))
    ensures u["email"] == (if "email" in credentials then credentials["email"] else Undefined)
  {
    map["id" := Num(FromInt(1)), "name" := Str("Admin User"),
        "email" := (if "email" in credentials then credentials["email"] else Undefined),
        "role" := Str("admin")]
  }

  /** `{ id: Date.now(), ...userData, role: 'user' }` */
  function RegisteredUser(userData: Profile, now: nat): (u: Profile)
    ensures u.Keys == userData.Keys + {"id", "role"}
    ensures u["role"] == Str("user")
    ensures u["id"] == (if "id" in userData then userData["id"] else Num(FromInt(now)))
    ensures forall k :: k in userData && k != "role" ==> u[k] == userData[k]
  {
    map["id" := Num(FromInt(now))] + userData + map["role" := Str("user")]
  }

  /** `{ ...user, ...updates }`; spreading a signed-out (null) user contributes nothing. */
  function Merged(user: Option<Profile>, updates: Profile): (u: Profile)
    ensures u.Keys == updates.Keys + (if user.Some? then user.value.Keys else {})
    ensures forall k :: k in updates ==> u[k] == updates[k]
    ensures user.Some? ==> forall k :: k in user.value && k !in updates ==> u[k] == user.value[k]
  {
    (if user.Some? then user.value else map[]) + updates
  }

  /** `user?.role === 'admin'` */
  predicate IsAdminUser(user: Option<Profile>)
  {
    user.Some? && "role" in user.value && user.value["role"] == Str("admin")
  }

  /**
   * A profile update makes the user an administrator exactly when it sets the role
   * to 'admin', or leaves the role alone on a user who already was one.
   */
  lemma UpdateAndAdmin(user: Option<Profile>, updates: Profile)
    ensures IsAdminUser(Some(Merged(user, updates))) <==>
      (if "role" in updates then updates["role"] == Str("admin") else IsAdminUser(user))
  {
  }

  class Auth {
    /** `user`, `None` standing for null. */
    var user: Option<Profile>
    /** `token`, `None` standing for null. */
    var token: Option<string>
    var loading: bool

    /** The hook starts from what was stored for `user` and `authToken`, not loading. */
    constructor(storedUser: Option<Profile>, storedToken: Option<string>)
      ensures user == storedUser && token == storedToken && !loading
    {
      user := storedUser;
      token := storedToken;
      loading := false;
    }

    /** `!!token && !!user`: a user record is an object, so only a missing one is falsy. */
    predicate IsAuthenticated()
      reads this
    {
      token.Some? && token.value != "" && user.Some?
    }

    /** `isAdmin` */
    predicate IsAdmin()
      reads this
    {
      IsAdminUser(user)
    }

    /** `setLoading(true)` at the start of `login`, `register` and `updateProfile`. */
    method BeginRequest()
      modifies this`loading
      ensures loading
    {
      loading := true;
    }

    /** The rest of `login(credentials)`: signs in the administrator and stops loading. */
    method Login(credentials: Profile, now: nat) returns (result: AuthResult)
      modifies this
      ensures user == Some(LoginUser(credentials)) && token == Some(MockToken(now))
      ensures result == AuthResult(true, LoginUser(credentials))
      ensures IsAuthenticated() && IsAdmin() && !loading
    {
      var mockUser := LoginUser(credentials);
      user := Some(mockUser);
      token := Some(TokenPrefix + DecimalString(now));
      loading := false;
      result := AuthResult(true, mockUser);
    }

    /** `logout()`: forgets the user and the token. */
    method Logout()
      modifies this`user, this`token
      ensures user == None && token == None
      ensures !IsAuthenticated() && !IsAdmin()
    {
      user := None;
      token := None;
    }

    /** The rest of `register(userData)`: signs in a new ordinary user and stops loading. */
    method Register(userData: Profile, now: nat) returns (result: AuthResult)
      modifies this
      ensures user == Some(RegisteredUser(userData, now)) && token == Some(MockToken(now))
      ensures result == AuthResult(true, RegisteredUser(userData, now))
      ensures IsAuthenticated() && !IsAdmin() && !loading
    {
      var mockUser := map["id" := Num(FromInt(now))] + userData + map["role" := Str("user")];
      user := Some(mockUser);
      token := Some(TokenPrefix + DecimalString(now));
      loading := false;
      result := AuthResult(true, mockUser);
    }

    /** The rest of `updateProfile(updates)`: merges the updates over the user; the token stays. */
    method UpdateProfile(updates: Profile) returns (result: AuthResult)
      modifies this`user, this`loading
      ensures user == Some(Merged(old(user), updates)) && result == AuthResult(true, Merged(old(user), updates))
      ensures !loading
      ensures old(IsAuthenticated()) ==> IsAuthenticated()
    {
      var updated := (if user.Some? then user.value else map[]) + updates;
      user := Some(updated);
      loading := false;
      result := AuthResult(true, updated);
    }
  }
}
