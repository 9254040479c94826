/**
 * The credentials sign-in configuration: the schema the submitted
 * credentials must pass, the `authorize` guard chain over the user table,
 * the callbacks that copy the user's id and role into the token and from
 * the token into the session, and the session lifetime.
 *
 * Password hashing is a parameter `Crypto`; `Sound` states the one property
 * of it the model relies on.
 */
module AuthConfig {
  import opened Wrappers
  import opened Js
  import opened Db
  import opened Validations

  /** `hash(password, cost)` and `compare(password, hash)`. */
  datatype Crypto = Crypto(hash: (string, nat) -> string, compare: (string, string) -> bool)

  /** A hash always matches the password it was made from. */
  ghost predicate Sound(c: Crypto) {
    forall p: string, cost: nat {:trigger c.hash(p, cost)} :: c.compare(p, c.hash(p, cost))
  }

  const CredentialsShape: Shape := [
    ("email", StringSchema([Email("Invalid email format")])),
    ("password", StringSchema([MinLength(6, PasswordLengthMessage)]))
  ]

  /** `credentialsSchema.parse(credentials)`: the e-mail and password, or `None` where parsing throws. */
  function ParseCredentials(isEmail: string -> bool, credentials: Value): (r: Option<(string, string)>)
    ensures r.Some? <==> ObjectCheck(isEmail, CredentialsShape, credentials).issues == []
    ensures r.Some? <==>
      && credentials.Obj?
      && Field(credentials.fields, "email").Str? && isEmail(Field(credentials.fields, "email").s)
      && Field(credentials.fields, "password").Str? && |Field(credentials.fields, "password").s| >= 6
    ensures r.Some? ==> r.value == (Field(credentials.fields, "email").s, Field(credentials.fields, "password").s)
  {
    if credentials.Obj? then
      var f := credentials.fields;
      var e := FieldCheck(isEmail, "email", CredentialsShape[0].1, Field(f, "email"));
      var p := FieldCheck(isEmail, "password", CredentialsShape[1].1, Field(f, "password"));
      assert ShapeCheck(isEmail, CredentialsShape, f).issues == [] <==> e.issues == [] && p.issues == [];
      assert Field(f, "email").Str? ==> (e.issues == [] <==> isEmail(Field(f, "email").s));
      assert Field(f, "password").Str? ==> (p.issues == [] <==> |Field(f, "password").s| >= 6);
      if Field(f, "email").Str? && isEmail(Field(f, "email").s) && Field(f, "password").Str? && |Field(f, "password").s| >= 6
      then Some((Field(f, "email").s, Field(f, "password").s))
      else None
    else None
  }

  /** What a successful `authorize` returns: no password. */
  datatype AuthorizedUser = AuthorizedUser(id: UserId, name: Value, email: string, role: Role)

  /** `authorize(credentials)`: a user, or `None` for every failure (the body's exceptions are all caught). */
  function Authorize(t: Tables, crypto: Crypto, isEmail: string -> bool, credentials: Value): (r: Option<AuthorizedUser>)
    ensures r.Some? ==>
      && ParseCredentials(isEmail, credentials).Some?
      && var (email, password) := ParseCredentials(isEmail, credentials).value;
         && FindUserByEmail(t, email).Some?
         && crypto.compare(password, FindUserByEmail(t, email).value.password)
         && r.value == AuthorizedUser(FindUserByEmail(t, email).value.id, FindUserByEmail(t, email).value.name,
                                      FindUserByEmail(t, email).value.email, FindUserByEmail(t, email).value.role)
    ensures WellFormed(t) && r.Some? ==> r.value.email == ParseCredentials(isEmail, credentials).value.0
  {
    match ParseCredentials(isEmail, credentials)
    case None => None
    case Some((email, password)) =>
      match FindUserByEmail(t, email)
      case None => None
      case Some(user) =>
        if !crypto.compare(password, user.password) then None
        else Some(AuthorizedUser(user.id, user.name, user.email, user.role))
  }

  /**
   * `authorize` fails exactly on credentials the schema rejects, an unknown
   * e-mail, or a wrong password; the last two give the same answer.
   */
  lemma AuthorizeFails(t: Tables, crypto: Crypto, isEmail: string -> bool, credentials: Value)
    ensures Authorize(t, crypto, isEmail, credentials).None? <==>
      || ParseCredentials(isEmail, credentials).None?
      || FindUserByEmail(t, ParseCredentials(isEmail, credentials).value.0).None?
      || !crypto.compare(ParseCredentials(isEmail, credentials).value.1, FindUserByEmail(t, ParseCredentials(isEmail, credentials).value.0).value.password)
  {
  }

  /** A stored user whose password hash matches is authorized as that very user. */
  lemma AuthorizeKnownUser(t: Tables, crypto: Crypto, isEmail: string -> bool, id: UserId, password: string)
    requires WellFormed(t) && id in t.users
    requires isEmail(t.users[id].email) && |password| >= 6 && crypto.compare(password, t.users[id].password)
    ensures Authorize(t, crypto, isEmail, Obj(map["email" := Str(t.users[id].email), "password" := Str(password)]))
            == Some(AuthorizedUser(id, t.users[id].name, t.users[id].email, t.users[id].role))
  {
  }

  /** The session lifetime: 30 days, in seconds. */
  const SessionMaxAge: int := 30 * 24 * 60 * 60

  lemma SessionMaxAgeValue()
    ensures SessionMaxAge == 2592000
  {
  }

  /** The JWT's custom claims. */
  class Token {
    var id: Option<UserId>
    var role: Option<Role>
    /** Every other claim, left alone by the callbacks. */
    var claims: map<string, Value>

    constructor (claims: map<string, Value>)
      ensures id.None? && role.None? && this.claims == claims
    {
      id := None;
      role := None;
      this.claims := claims;
    }
  }

  /** The `jwt` callback: copy id and role from a freshly signed-in user, otherwise change nothing. */
  method Jwt(token: Token, user: Option<AuthorizedUser>) returns (r: Token)
    modifies token
    ensures r == token
    ensures user.Some? ==> token.id == Some(user.value.id) && token.role == Some(user.value.role)
    ensures user.Some? ==> token.claims == old(token.claims)
    ensures user.None? ==> unchanged(token)
  {
    if user.Some? {
      token.id := Some(user.value.id);
      token.role := Some(user.value.role);
    }
    r := token;
  }

  class SessionUser {
    var id: Option<UserId>
    var role: Option<Role>
    var name: Value
    var email: Value

    constructor (name: Value, email: Value)
      ensures id.None? && role.None? && this.name == name && this.email == email
    {
      id := None;
      role := None;
      this.name := name;
      this.email := email;
    }
  }

  class Session {
    var user: SessionUser?

    constructor (user: SessionUser?)
      ensures this.user == user
    {
      this.user := user;
    }
  }

  /** The `session` callback: with a token and a session user, copy the token's id and role (absent ones stay absent). */
  method SessionCallback(session: Session, token: Token?) returns (r: Session)
    modifies session.user
    ensures r == session && session.user == old(session.user)
    ensures token != null && session.user != null ==>
      session.user.id == token.id && session.user.role == token.role
      && session.user.name == old(session.user.name) && session.user.email == old(session.user.email)
    ensures token == null || session.user == null ==> session.user == null || unchanged(session.user)
  {
    if token != null && session.user != null {
      session.user.id := token.id;
      session.user.role := token.role;
    }
    r := session;
  }

  /** What a route handler sees of `auth()`: no session, a session without a user, or the user's id and role. */
  datatype AuthSession = NoSession | NoUser | SignedIn(id: Option<UserId>, role: Option<Role>)

  function View(session: Session?): AuthSession
    reads session, if session != null then {session.user} else {}
  {
    if session == null then NoSession
    else if session.user == null then NoUser
    else SignedIn(session.user.id, session.user.role)
  }

  /** A sign-in carries the user's id and role through the token into what the routes see. */
  method SignInFlow(user: AuthorizedUser, claims: map<string, Value>, name: Value, email: Value) returns (seen: AuthSession)
    ensures seen == SignedIn(Some(user.id), Some(user.role))
  {
    var token := new Token(claims);
    token := Jwt(token, Some(user));
    var su := new SessionUser(name, email);
    var session := new Session(su);
    session := SessionCallback(session, token);
    seen := View(session);
  }
}
