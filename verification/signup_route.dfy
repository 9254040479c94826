/**
 * `POST /api/auth/signup`: validate the name, e-mail, password and role,
 * refuse a taken e-mail, store the hashed password and answer with the new
 * user's public fields.
 */
module SignupRoute {
  import opened Wrappers
  import opened Js
  import opened Db
  import opened Http
  import opened Validations
  import opened AuthConfig

  /** The schema entry for `key`, if the shape has one. */
  function Lookup(shape: Shape, key: string): (r: Option<FieldSchema>)
    ensures r.Some? ==> (key, r.value) in shape
    ensures r.None? ==> forall i :: 0 <= i < |shape| ==> shape[i].0 != key
  {
    if shape == [] then None else if shape[0].0 == key then Some(shape[0].1) else Lookup(shape[1..], key)
  }

  /** `schema.pick(mask)`: the entries named by `keys`, in the order of `keys`. */
  function Pick(shape: Shape, keys: seq<string>): (r: Shape)
    ensures |r| <= |keys|
    ensures forall i :: 0 <= i < |r| ==> r[i] in shape && r[i].0 in keys
  {
    if keys == [] then []
    else
      var rest := Pick(shape, keys[1..]);
      match Lookup(shape, keys[0])
      case None => rest
      case Some(schema) => [(keys[0], schema)] + rest
  }

  /** The server's schema: the signup form's object without its refinement, keeping four fields. */
  const SignupDataShape: Shape := Pick(SignupShape, ["name", "email", "password", "role"])

  /** `Lookup` finds the first entry carrying the key. */
  lemma {:induction false} LookupAt(shape: Shape, i: int)
    requires 0 <= i < |shape| && forall j :: 0 <= j < i ==> shape[j].0 != shape[i].0
    ensures Lookup(shape, shape[i].0) == Some(shape[i].1)
  {
    if i > 0 {
      assert shape[1..][i - 1] == shape[i];
      LookupAt(shape[1..], i - 1);
    }
  }

  lemma SignupDataShapeValue()
    ensures SignupDataShape == [SignupShape[0], SignupShape[1], SignupShape[2], SignupShape[4]]
  {
    PickEmail();
    PickFirst(SignupShape, ["name", "email", "password", "role"], 0);
  }

  lemma PickRole()
    ensures Pick(SignupShape, ["role"]) == [SignupShape[4]]
  {
    PickFirst(SignupShape, ["role"], 4);
  }

  lemma PickPassword()
    ensures Pick(SignupShape, ["password", "role"]) == [SignupShape[2], SignupShape[4]]
  {
    PickRole();
    PickFirst(SignupShape, ["password", "role"], 2);
  }

  lemma PickEmail()
    ensures Pick(SignupShape, ["email", "password", "role"]) == [SignupShape[1], SignupShape[2], SignupShape[4]]
  {
    PickPassword();
    PickFirst(SignupShape, ["email", "password", "role"], 1);
  }

  /** `Pick` takes the first entry named by the first key, then picks the rest. */
  lemma PickFirst(shape: Shape, keys: seq<string>, i: int)
    requires keys != [] && 0 <= i < |shape| && shape[i].0 == keys[0]
    requires forall j :: 0 <= j < i ==> shape[j].0 != shape[i].0
    ensures Pick(shape, keys) == [shape[i]] + Pick(shape, keys[1..])
  {
    LookupAt(shape, i);
  }

  /** The fields the server schema requires, read off one object. */
  predicate SignupDataOk(isEmail: string -> bool, f: map<string, Value>) {
    && Field(f, "name").Str? && |Field(f, "name").s| >= 2
    && Field(f, "email").Str? && isEmail(Field(f, "email").s)
    && Field(f, "password").Str? && |Field(f, "password").s| >= 6
    && HasUpperChar(Field(f, "password").s) && HasDigitChar(Field(f, "password").s)
    && Field(f, "role").Str? && (Field(f, "role").s == "FREELANCER" || Field(f, "role").s == "CLIENT")
  }

  lemma SignupDataAccepts(isEmail: string -> bool, input: Value)
    ensures ObjectCheck(isEmail, SignupDataShape, input).issues == [] <==> input.Obj? && SignupDataOk(isEmail, input.fields)
  {
    if input.Obj? {
      var f := input.fields;
      FourFields(isEmail, f);
      NameRule(isEmail, Field(f, "name"));
      EmailRule(isEmail, Field(f, "email"));
      PasswordRule(isEmail, Field(f, "password"));
      RoleRule(isEmail, Field(f, "role"));
    }
  }

  /** The server schema passes when each of its four fields does. */
  lemma FourFields(isEmail: string -> bool, f: map<string, Value>)
    ensures ShapeCheck(isEmail, SignupDataShape, f).issues == [] <==>
      && FieldCheck(isEmail, "name", SignupShape[0].1, Field(f, "name")).issues == []
      && FieldCheck(isEmail, "email", SignupShape[1].1, Field(f, "email")).issues == []
      && FieldCheck(isEmail, "password", SignupShape[2].1, Field(f, "password")).issues == []
      && FieldCheck(isEmail, "role", SignupShape[4].1, Field(f, "role")).issues == []
  {
    SignupDataShapeValue();
    ShapeOfFour(isEmail, SignupDataShape, f);
  }

  lemma ShapeOfFour(isEmail: string -> bool, sh: Shape, f: map<string, Value>)
    requires |sh| == 4
    ensures ShapeCheck(isEmail, sh, f).issues == [] <==>
      && FieldCheck(isEmail, sh[0].0, sh[0].1, Field(f, sh[0].0)).issues == []
      && FieldCheck(isEmail, sh[1].0, sh[1].1, Field(f, sh[1].0)).issues == []
      && FieldCheck(isEmail, sh[2].0, sh[2].1, Field(f, sh[2].0)).issues == []
      && FieldCheck(isEmail, sh[3].0, sh[3].1, Field(f, sh[3].0)).issues == []
  {
    var r := ShapeCheck(isEmail, sh, f);
    if FieldCheck(isEmail, sh[0].0, sh[0].1, Field(f, sh[0].0)).issues == []
       && FieldCheck(isEmail, sh[1].0, sh[1].1, Field(f, sh[1].0)).issues == []
       && FieldCheck(isEmail, sh[2].0, sh[2].1, Field(f, sh[2].0)).issues == []
       && FieldCheck(isEmail, sh[3].0, sh[3].1, Field(f, sh[3].0)).issues == [] {
      forall i | 0 <= i < |sh|
        ensures FieldCheck(isEmail, sh[i].0, sh[i].1, Field(f, sh[i].0)).issues == []
      {
        if i == 0 {
        } else if i == 1 {
        } else if i == 2 {
        } else {
        }
      }
      assert r.issues == [];
    }
  }

  /** Everything the signup form accepts the server accepts too. */
  lemma FormAcceptedServerAccepts(isEmail: string -> bool, input: Value)
    requires SignupIssues(isEmail, input) == []
    ensures ObjectCheck(isEmail, SignupDataShape, input).issues == []
  {
    SignupAccepts(isEmail, input);
    SignupDataAccepts(isEmail, input);
  }

  /** The server accepts a body with no confirmation and no accepted terms, which the form rejects. */
  lemma ServerSkipsConfirmationAndTerms(isEmail: string -> bool, body: Value)
    requires isEmail("ann@example.com")
    requires body == Obj(map["name" := Str("Ann"), "email" := Str("ann@example.com"), "password" := Str("Secret1"), "role" := Str("CLIENT")])
    ensures ObjectCheck(isEmail, SignupDataShape, body).issues == []
    ensures SignupIssues(isEmail, body) != []
  {
    var f := body.fields;
    assert SignupDataOk(isEmail, f) by {
      assert Field(f, "password").s[0] == 'S' && Field(f, "password").s[6] == '1';
    }
    assert !SignupFieldsOk(isEmail, f) by {
      assert Field(f, "confirmPassword") == Undefined;
    }
    SignupDataAccepts(isEmail, body);
    SignupAccepts(isEmail, body);
  }

  /** `path.join('.')` */
  function JoinPath(path: seq<string>): (s: string)
    ensures |path| == 1 ==> s == path[0]
    ensures path == [] ==> s == ""
  {
    if path == [] then "" else if |path| == 1 then path[0] else path[0] + "." + JoinPath(path[1..])
  }

  /** One `{path, message}` detail per issue, in order. */
  function Details(issues: seq<Issue>): (ds: seq<Value>)
    ensures |ds| == |issues|
    ensures forall i :: 0 <= i < |issues| ==> ds[i] == Obj(map["path" := Str(JoinPath(issues[i].path)), "message" := Str(issues[i].message)])
  {
    seq(|issues|, i requires 0 <= i < |issues| => Obj(map["path" := Str(JoinPath(issues[i].path)), "message" := Str(issues[i].message)]))
  }

  /** The public fields of a user: id, name, e-mail and role. */
  function PublicUser(row: UserRow): (v: Value)
    ensures v.Obj? && v.fields.Keys == {"id", "name", "email", "role"}
  {
    Obj(map["id" := Num(row.id), "name" := row.name, "email" := Str(row.email), "role" := Str(RoleName(row.role))])
  }

  const HashCost: nat := 10

  /** The handler's effect on the tables and its response; `None` is a body that is not JSON. */
  function SignupOutcome(t: Tables, crypto: Crypto, isEmail: string -> bool, body: Option<Value>): (Tables, Response)
    requires WellFormed(t)
  {
    match body
    case None => (t, Error(500, "Registration failed"))
    case Some(v) =>
      var check := ObjectCheck(isEmail, SignupDataShape, v);
      if check.issues != [] then
        (t, Json(400, Obj(map["error" := Str("Validation failed"), "details" := Arr(Details(check.issues))])))
      else
        SignupDataAccepts(isEmail, v);
        var f := v.fields;
        var email := Field(f, "email").s;
        if FindUserByEmail(t, email).Some? then
          (t, Error(409, "User with this email already exists"))
        else
          var (t', row) := CreateUser(t, Field(f, "name"), email, crypto.hash(Field(f, "password").s, HashCost),
                                      ParseRole(Field(f, "role").s).value);
          (t', Json(201, Obj(map["success" := Bool(true), "user" := PublicUser(row)])))
  }

  /** The handler, on the store. */
  method Post(db: Store, crypto: Crypto, isEmail: string -> bool, body: Option<Value>) returns (resp: Response)
    requires db.Valid()
    modifies db
    ensures db.Valid()
    ensures (db.Snapshot(), resp) == SignupOutcome(old(db.Snapshot()), crypto, isEmail, body)
  {
    if body.None? {
      return Error(500, "Registration failed");
    }
    var v := body.value;
    var check := ObjectCheck(isEmail, SignupDataShape, v);
    if check.issues != [] {
      return Json(400, Obj(map["error" := Str("Validation failed"), "details" := Arr(Details(check.issues))]));
    }
    SignupDataAccepts(isEmail, v);
    var f := v.fields;
    var email := Field(f, "email").s;
    var existing := FindUserByEmail(db.Snapshot(), email);
    if existing.Some? {
      return Error(409, "User with this email already exists");
    }
    var hashed := crypto.hash(Field(f, "password").s, HashCost);
    CreateUserWellFormed(db.Snapshot(), Field(f, "name"), email, hashed, ParseRole(Field(f, "role").s).value);
    var row := db.CreateUserRow(Field(f, "name"), email, hashed, ParseRole(Field(f, "role").s).value);
    resp := Json(201, Obj(map["success" := Bool(true), "user" := PublicUser(row)]));
  }

  /** Input the server schema rejects gets 400 with one detail per issue and changes nothing. */
  lemma RejectedInput(t: Tables, crypto: Crypto, isEmail: string -> bool, v: Value)
    requires WellFormed(t) && ObjectCheck(isEmail, SignupDataShape, v).issues != []
    ensures SignupOutcome(t, crypto, isEmail, Some(v)).0 == t
    ensures SignupOutcome(t, crypto, isEmail, Some(v)).1.Status() == 400
    ensures |SignupOutcome(t, crypto, isEmail, Some(v)).1.body.fields["details"].items| == |ObjectCheck(isEmail, SignupDataShape, v).issues|
  {
  }

  /** A taken e-mail gets 409 and changes nothing. */
  lemma TakenEmail(t: Tables, crypto: Crypto, isEmail: string -> bool, v: Value)
    requires WellFormed(t) && ObjectCheck(isEmail, SignupDataShape, v).issues == []
    requires v.Obj? && Field(v.fields, "email").Str? && FindUserByEmail(t, Field(v.fields, "email").s).Some?
    ensures SignupOutcome(t, crypto, isEmail, Some(v)) == (t, Error(409, "User with this email already exists"))
  {
  }

  /** A body that is not JSON gets 500 and changes nothing. */
  lemma UnreadableBody(t: Tables, crypto: Crypto, isEmail: string -> bool)
    requires WellFormed(t)
    ensures SignupOutcome(t, crypto, isEmail, None) == (t, Error(500, "Registration failed"))
  {
  }

  /**
   * A successful signup adds exactly one user, whose stored password is the
   * cost-10 hash of the submitted one, and answers 201 with its public fields.
   */
  lemma SuccessfulSignup(t: Tables, crypto: Crypto, isEmail: string -> bool, v: Value)
    requires WellFormed(t) && SignupOutcome(t, crypto, isEmail, Some(v)).1.Status() == 201
    ensures v.Obj? && SignupDataOk(isEmail, v.fields)
    ensures var (t', resp) := SignupOutcome(t, crypto, isEmail, Some(v));
            var email := Field(v.fields, "email").s;
            && WellFormed(t')
            && FindUserByEmail(t, email).None?
            && t'.users == t.users[t.nextId := UserRow(t.nextId, Field(v.fields, "name"), email,
                                                       crypto.hash(Field(v.fields, "password").s, 10),
                                                       ParseRole(Field(v.fields, "role").s).value, Null)]
            && t'.profiles == t.profiles && t'.achievements == t.achievements
            && resp.body.fields["user"].fields.Keys == {"id", "name", "email", "role"}
  {
    SignupDataAccepts(isEmail, v);
    var f := v.fields;
    CreateUserWellFormed(t, Field(f, "name"), Field(f, "email").s, crypto.hash(Field(f, "password").s, 10), ParseRole(Field(f, "role").s).value);
  }

  /** With a sound hash, the password just registered signs the new user in. */
  lemma SignupThenSignIn(t: Tables, crypto: Crypto, isEmail: string -> bool, v: Value)
    requires WellFormed(t) && Sound(crypto)
    requires SignupOutcome(t, crypto, isEmail, Some(v)).1.Status() == 201
    ensures v.Obj? && SignupDataOk(isEmail, v.fields)
    ensures var t' := SignupOutcome(t, crypto, isEmail, Some(v)).0;
            var email := Field(v.fields, "email").s;
            Authorize(t', crypto, isEmail, Obj(map["email" := Str(email), "password" := Field(v.fields, "password")]))
              == Some(AuthorizedUser(t.nextId, Field(v.fields, "name"), email, ParseRole(Field(v.fields, "role").s).value))
  {
    SuccessfulSignup(t, crypto, isEmail, v);
    var t' := SignupOutcome(t, crypto, isEmail, Some(v)).0;
    var password := Field(v.fields, "password").s;
    assert crypto.compare(password, crypto.hash(password, 10));
    AuthorizeKnownUser(t', crypto, isEmail, t.nextId, password);
  }
}
