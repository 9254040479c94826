/**
 * `PATCH /api/profile/update`: write the truthy ones among `name` and
 * `avatar` to the user row (the update is issued even when there are
 * none), then upsert the profile: an existing one gets the truthy ones
 * among `profile.{title, location, bio, skills, endorsements}` written over
 * its columns, a missing one is created from defaults the same values
 * replace. The answer holds the updated user row and the profile row.
 *
 * Every exception becomes a 500 whose plain-text body is the exception's
 * message, which is not modelled (`ErrorText(500)`).
 */
module ProfileUpdateRoute {
  import opened Wrappers
  import opened Js
  import opened Db
  import opened Http
  import opened AuthConfig
  import SignupRoute

  const Unauthorized := Text(401, "Unauthorized")

  // ---------------------------------------------------------------------
  // The update objects

  /** `body.name`, `body.avatar`, `body.profile`, for a body that is not null. */
  function Field(body: Value, key: string): Value
    requires !body.Null? && !body.Undefined?
  {
    Get(body, key).value
  }

  /** The user columns written: `name` and `avatar`, each only when truthy (an empty string is dropped). */
  function UserUpdateData(body: Value): (m: map<string, Value>)
    requires !body.Null? && !body.Undefined?
    ensures m.Keys <= {"name", "avatar"}
    ensures "name" in m <==> Truthy(Field(body, "name"))
    ensures "avatar" in m <==> Truthy(Field(body, "avatar"))
    ensures forall k :: k in m ==> m[k] == Field(body, k)
  {
    var withName: map<string, Value> := if Truthy(Field(body, "name")) then map["name" := Field(body, "name")] else map[];
    if Truthy(Field(body, "avatar")) then withName["avatar" := Field(body, "avatar")] else withName
  }

  const PatchProfileKeys: set<string> := {"title", "location", "bio", "skills", "endorsements"}

  /** The profile columns an update writes: those of the five keys whose `profile?.key` is truthy. */
  function ProfileUpdateData(profile: Value): (m: map<string, Value>)
    ensures forall k :: k in m <==> k in PatchProfileKeys && Truthy(OptGet(profile, k))
    ensures forall k :: k in m ==> m[k] == OptGet(profile, k)
  {
    map k | k in PatchProfileKeys && Truthy(OptGet(profile, k)) :: OptGet(profile, k)
  }

  /** The columns a created profile starts from. */
  const DefaultColumns: map<string, Value> := map[
    "bio" := Str(""), "title" := Null, "location" := Null, "endorsements" := Arr([]), "skills" := Arr([]),
    "level" := Num(1), "xp" := Num(0), "streak" := Num(0)]

  /** The `create` branch of the upsert, written out column by column with `||` defaults. */
  function CreateData(profile: Value): map<string, Value> {
    map["bio" := Or(OptGet(profile, "bio"), Str("")),
        "title" := Or(OptGet(profile, "title"), Null),
        "location" := Or(OptGet(profile, "location"), Null),
        "endorsements" := Or(OptGet(profile, "endorsements"), Arr([])),
        "skills" := Or(OptGet(profile, "skills"), Arr([])),
        "level" := Num(1), "xp" := Num(0), "streak" := Num(0)]
  }

  /** The created columns are the defaults with exactly the update's values written over them. */
  lemma CreateDataIsDefaultsUpdated(profile: Value)
    ensures CreateData(profile) == DefaultColumns + ProfileUpdateData(profile)
  {
    var c, d := CreateData(profile), DefaultColumns + ProfileUpdateData(profile);
    CreateDataKeys(profile);
    forall k | k in c
      ensures c[k] == d[k]
    {
      if k in PatchProfileKeys {
        UpdatedColumn(profile, k);
        CreatedColumn(profile, k);
      } else {
        FixedColumn(profile, k);
      }
    }
  }

  lemma CreatedColumn(profile: Value, k: string)
    requires k in PatchProfileKeys
    ensures CreateData(profile)[k] == Or(OptGet(profile, k), DefaultColumns[k])
  {
  }

  lemma FixedColumn(profile: Value, k: string)
    requires k in CreateData(profile) && k !in PatchProfileKeys
    ensures k !in ProfileUpdateData(profile) && k in DefaultColumns
    ensures CreateData(profile)[k] == DefaultColumns[k]
  {
  }

  lemma CreateDataKeys(profile: Value)
    ensures CreateData(profile).Keys == (DefaultColumns + ProfileUpdateData(profile)).Keys
  {
    assert PatchProfileKeys <= DefaultColumns.Keys;
  }

  /** A column the update may write: its value if truthy, else the default. */
  lemma UpdatedColumn(profile: Value, k: string)
    requires k in PatchProfileKeys
    ensures (DefaultColumns + ProfileUpdateData(profile))[k] == Or(OptGet(profile, k), DefaultColumns[k])
  {
  }

  // ---------------------------------------------------------------------
  // The answer

  /** A user row as the client returns it: every column, the password hash included. */
  function UserRowValue(row: UserRow): (v: Value)
    ensures v.Obj? && v.fields.Keys == {"id", "name", "email", "password", "role", "avatar"}
  {
    Obj(map["id" := Num(row.id), "name" := row.name, "email" := Str(row.email), "password" := Str(row.password),
            "role" := Str(RoleName(row.role)), "avatar" := row.avatar])
  }

  /** A profile row as the client returns it: its id, its owner and its written columns. */
  function ProfileRowValue(p: ProfileRow): (v: Value)
    ensures v.Obj? && v.fields.Keys == p.fields.Keys + {"id", "userId"}
    ensures v.fields["id"] == Num(p.id) && v.fields["userId"] == Num(p.userId)
  {
    Obj(p.fields["id" := Num(p.id)]["userId" := Num(p.userId)])
  }

  // ---------------------------------------------------------------------
  // The handler

  /** `profile.upsert`: the update on an existing profile, the create otherwise; `None` when the create throws. */
  function Upsert(t: Tables, uid: UserId, update: map<string, Value>, create: map<string, Value>): Option<(Tables, ProfileRow)> {
    if uid in t.profiles then UpdateProfile(t, uid, update) else CreateProfile(t, uid, create)
  }

  /**
   * The handler's writes and answer, as written: the answer's `user` is the
   * full updated row. `projectUser` renders that row; the handler as
   * written passes `UserRowValue`.
   */
  function Outcome(t: Tables, session: AuthSession, body: Option<Value>, projectUser: UserRow -> Value): (Tables, Response) {
    if !session.SignedIn? then (t, Unauthorized)
    else if body.None? || body.value.Null? || body.value.Undefined? || session.id.None? then (t, ErrorText(500))
    else
      var data := body.value;
      var uid := session.id.value;
      var profile := Field(data, "profile");
      match UpdateUser(t, uid, UserUpdateData(data))
      case None => (t, ErrorText(500))
      case Some((t1, updated)) =>
        match Upsert(t1, uid, ProfileUpdateData(profile), CreateData(profile))
        case None => (t1, ErrorText(500))
        case Some((t2, p)) => (t2, Json(200, Obj(map["user" := projectUser(updated), "profile" := ProfileRowValue(p)])))
  }

  /** The handler as written. */
  function PatchOutcome(t: Tables, session: AuthSession, body: Option<Value>): (Tables, Response) {
    Outcome(t, session, body, UserRowValue)
  }

  /** The handler with the user rendered like the sign-up and `me` routes render it, without the password. */
  function PatchOutcomeIntended(t: Tables, session: AuthSession, body: Option<Value>): (Tables, Response) {
    Outcome(t, session, body, SignupRoute.PublicUser)
  }

  /** The handler, on the store, as written. */
  method Patch(db: Store, session: AuthSession, body: Option<Value>) returns (resp: Response)
    requires db.Valid()
    modifies db
    ensures db.Valid()
    ensures (db.Snapshot(), resp) == PatchOutcome(old(db.Snapshot()), session, body)
  {
    if !session.SignedIn? {
      return Unauthorized;
    }
    if body.None? || body.value.Null? || body.value.Undefined? || session.id.None? {
      return ErrorText(500);
    }
    var data := body.value;
    var uid := session.id.value;
    var profile := Field(data, "profile");
    var userData := UserUpdateData(data);
    var profileData := ProfileUpdateData(profile);
    var createData := CreateData(profile);
    ghost var before := db.Snapshot();
    var updated := db.UpdateUserRow(uid, userData);
    if updated.None? {
      return ErrorText(500);
    }
    UpdateUserWellFormed(before, uid, userData);
    var p := RunUpsert(db, uid, profileData, createData);
    if p.None? {
      return ErrorText(500);
    }
    resp := Json(200, Obj(map["user" := UserRowValue(updated.value), "profile" := ProfileRowValue(p.value)]));
  }

  /** `prisma.profile.upsert` on the store: update the user's profile, or create it. */
  method RunUpsert(db: Store, uid: UserId, update: map<string, Value>, create: map<string, Value>) returns (p: Option<ProfileRow>)
    requires db.Valid()
    modifies db
    ensures db.Valid()
    ensures var r := Upsert(old(db.Snapshot()), uid, update, create);
            if r.Some? then db.Snapshot() == r.value.0 && p == Some(r.value.1) else db.Snapshot() == old(db.Snapshot()) && p.None?
  {
    if FindProfile(db.Snapshot(), uid).Some? {
      UpdateProfileWellFormed(db.Snapshot(), uid, update);
      p := db.UpdateProfileRow(uid, update);
    } else {
      ghost var before := db.Snapshot();
      p := db.CreateProfileRow(uid, create);
      if p.Some? {
        CreateProfileWellFormed(before, uid, create);
      }
    }
  }

  // ---------------------------------------------------------------------
  // What the handler does

  /** The request gets past the session check, names a user id, and its body is readable. */
  predicate Accepted(session: AuthSession, body: Option<Value>) {
    session.SignedIn? && session.id.Some? && body.Some? && !body.value.Null? && !body.value.Undefined?
  }

  /** Without a session the answer is a plain 401 and nothing is written. */
  lemma PatchNeedsSession(t: Tables, session: AuthSession, body: Option<Value>)
    requires !session.SignedIn?
    ensures PatchOutcome(t, session, body) == (t, Unauthorized)
  {
  }

  /**
   * The user update is issued even when there is nothing to write, so a
   * signed-in user whose row is gone gets a 500 and nothing changes,
   * whatever the body holds.
   */
  lemma PatchMissingUser(t: Tables, session: AuthSession, body: Option<Value>)
    requires Accepted(session, body) && session.id.value !in t.users
    ensures PatchOutcome(t, session, body) == (t, ErrorText(500))
  {
  }

  /**
   * For an existing user the handler succeeds: the user row takes the truthy
   * name and avatar, no other user changes, and the achievements are left
   * alone.
   */
  lemma PatchUserEffect(t: Tables, session: AuthSession, body: Option<Value>)
    requires Accepted(session, body) && session.id.value in t.users
    ensures var (t', resp) := PatchOutcome(t, session, body);
            var uid := session.id.value;
            && resp.Status() == 200
            && t'.users == t.users[uid := UpdatedUserRow(t.users[uid], UserUpdateData(body.value))]
            && t'.byEmail == t.byEmail && t'.achievements == t.achievements
  {
  }

  /** An existing profile gets the update's values over its columns; every other profile is unchanged. */
  lemma PatchUpdatesProfile(t: Tables, session: AuthSession, body: Option<Value>)
    requires Accepted(session, body)
    requires session.id.value in t.users && session.id.value in t.profiles
    ensures var t' := PatchOutcome(t, session, body).0;
            var uid := session.id.value;
            var p := t.profiles[uid];
            t'.profiles == t.profiles[uid := p.(fields := p.fields + ProfileUpdateData(Field(body.value, "profile")))]
  {
  }

  /** A missing profile is created from the defaults with the update's values written over them. */
  lemma PatchCreatesProfile(t: Tables, session: AuthSession, body: Option<Value>)
    requires Accepted(session, body)
    requires session.id.value in t.users && session.id.value !in t.profiles
    ensures var t' := PatchOutcome(t, session, body).0;
            var uid := session.id.value;
            t'.profiles == t.profiles[uid := ProfileRow(t.nextId, uid, DefaultColumns + ProfileUpdateData(Field(body.value, "profile")))]
  {
    CreateDataIsDefaultsUpdated(Field(body.value, "profile"));
  }

  /**
   * Portfolio, xp, level and streak cannot be set through this handler: an
   * existing profile keeps them, and a created one starts at level 1 with 0
   * xp, a 0 streak and no portfolio.
   */
  lemma PatchKeepsGamification(t: Tables, session: AuthSession, body: Option<Value>, k: string)
    requires Accepted(session, body) && session.id.value in t.users
    requires k == "portfolio" || k == "xp" || k == "level" || k == "streak"
    ensures var t' := PatchOutcome(t, session, body).0;
            var uid := session.id.value;
            && uid in t'.profiles
            && (uid in t.profiles ==> (k in t'.profiles[uid].fields <==> k in t.profiles[uid].fields))
            && (uid in t.profiles && k in t.profiles[uid].fields ==> t'.profiles[uid].fields[k] == t.profiles[uid].fields[k])
            && (uid !in t.profiles ==> (k in t'.profiles[uid].fields <==> k in DefaultColumns))
            && (uid !in t.profiles && k in DefaultColumns ==> t'.profiles[uid].fields[k] == DefaultColumns[k])
  {
    var pd := Field(body.value, "profile");
    assert k !in PatchProfileKeys;
    assert k !in ProfileUpdateData(pd);
    if session.id.value !in t.profiles {
      CreateDataIsDefaultsUpdated(pd);
    }
  }

  /** As written, every successful answer carries the user's password hash. */
  lemma PatchExposesPassword(t: Tables, session: AuthSession, body: Option<Value>)
    requires Accepted(session, body) && session.id.value in t.users
    ensures var resp := PatchOutcome(t, session, body).1;
            && resp.Json? && resp.body.Obj? && "user" in resp.body.fields
            && resp.body.fields["user"].Obj?
            && resp.body.fields["user"].fields["password"] == Str(t.users[session.id.value].password)
  {
  }

  /**
   * The intended handler writes exactly what the handler as written does and
   * answers the same status, but its answer never carries a password.
   */
  lemma PatchIntendedHidesPassword(t: Tables, session: AuthSession, body: Option<Value>)
    ensures PatchOutcomeIntended(t, session, body).0 == PatchOutcome(t, session, body).0
    ensures PatchOutcomeIntended(t, session, body).1.Status() == PatchOutcome(t, session, body).1.Status()
    ensures var resp := PatchOutcomeIntended(t, session, body).1;
            resp.Status() == 200 ==>
              && resp.Json? && resp.body.Obj? && "user" in resp.body.fields
              && resp.body.fields["user"].Obj? && "password" !in resp.body.fields["user"].fields
  {
  }
}
