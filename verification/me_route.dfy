/**
 * `GET /api/auth/me` and `PUT /api/auth/me`: read the signed-in user with
 * profile and achievements; update the user's name and the profile's
 * fields after filtering them by type, creating the profile when needed,
 * and replace the profile's achievements wholesale.
 *
 * The calls are not transactional: when one fails, the writes before it
 * stay. The clock (`now`) and date parsing (`parseDate`) are parameters.
 */
module MeRoute {
  import opened Wrappers
  import opened Js
  import opened Db
  import opened Http
  import opened AuthConfig

  // ---------------------------------------------------------------------
  // The record both handlers answer with

  /** A profile column as read back; a column never written reads as null. */
  function Column(p: ProfileRow, name: string): Value {
    if name in p.fields then p.fields[name] else Null
  }

  predicate SortedByDateDesc(xs: seq<AchievementRow>) {
    forall i, j :: 0 <= i < j < |xs| ==> xs[i].achievedAt >= xs[j].achievedAt
  }

  function InsertByDate(x: AchievementRow, xs: seq<AchievementRow>): (r: seq<AchievementRow>)
    requires SortedByDateDesc(xs)
    ensures SortedByDateDesc(r) && multiset(r) == multiset(xs) + multiset{x} && |r| == |xs| + 1
    ensures r[0] == x || (xs != [] && r[0] == xs[0])
  {
    if xs == [] || xs[0].achievedAt <= x.achievedAt then [x] + xs
    else
      var rest := InsertByDate(x, xs[1..]);
      assert xs == [xs[0]] + xs[1..];
      [xs[0]] + rest
  }

  /** `orderBy: {achievedAt: 'desc'}` */
  function SortByDateDesc(xs: seq<AchievementRow>): (r: seq<AchievementRow>)
    ensures SortedByDateDesc(r) && multiset(r) == multiset(xs)
  {
    if xs == [] then []
    else
      assert xs == [xs[0]] + xs[1..];
      InsertByDate(xs[0], SortByDateDesc(xs[1..]))
  }

  function AchievementValue(a: AchievementRow): Value {
    Obj(map["id" := Num(a.id), "title" := a.title, "description" := a.description,
            "iconUrl" := a.iconUrl, "achievedAt" := Num(a.achievedAt)])
  }

  /** The selected profile: id, bio, skills, portfolio and its achievements, newest first. */
  function ProfileValue(t: Tables, p: ProfileRow): (v: Value)
    ensures v.Obj? && v.fields.Keys == {"id", "bio", "skills", "portfolio", "achievement"}
  {
    var rows := SortByDateDesc(AchievementsOf(t.achievements, p.id));
    Obj(map["id" := Num(p.id), "bio" := Column(p, "bio"), "skills" := Column(p, "skills"),
            "portfolio" := Column(p, "portfolio"),
            "achievement" := Arr(seq(|rows|, i requires 0 <= i < |rows| => AchievementValue(rows[i])))])
  }

  /** The selected user: id, name, e-mail, role and the profile (null when there is none); never the password. */
  function UserValue(t: Tables, u: UserRow): (v: Value)
    ensures v.Obj? && v.fields.Keys == {"id", "name", "email", "role", "profile"}
    ensures u.id in t.profiles ==> v.fields["profile"] == ProfileValue(t, t.profiles[u.id])
    ensures u.id !in t.profiles ==> v.fields["profile"] == Null
  {
    Obj(map["id" := Num(u.id), "name" := u.name, "email" := Str(u.email), "role" := Str(RoleName(u.role)),
            "profile" := if u.id in t.profiles then ProfileValue(t, t.profiles[u.id]) else Null])
  }

  /** The achievements a profile shows are exactly its rows, newest first. */
  lemma ProfileAchievementsOrdered(t: Tables, p: ProfileRow)
    ensures SortedByDateDesc(SortByDateDesc(AchievementsOf(t.achievements, p.id)))
    ensures multiset(SortByDateDesc(AchievementsOf(t.achievements, p.id))) == multiset(AchievementsOf(t.achievements, p.id))
    ensures |ProfileValue(t, p).fields["achievement"].items| == |AchievementsOf(t.achievements, p.id)|
  {
    var rows := AchievementsOf(t.achievements, p.id);
    assert |multiset(SortByDateDesc(rows))| == |multiset(rows)|;
  }

  // ---------------------------------------------------------------------
  // GET

  const AuthRequired := Error(401, "Authentication required")

  /** The GET handler; it only reads. */
  method HandleGet(db: Store, session: AuthSession) returns (resp: Response)
    ensures !session.SignedIn? ==> resp == AuthRequired
    ensures session.SignedIn? && session.id.None? ==> resp == Error(500, "Failed to get user profile")
    ensures session.SignedIn? && session.id.Some? && session.id.value !in db.users ==> resp == Error(404, "User not found")
    ensures session.SignedIn? && session.id.Some? && session.id.value in db.users ==>
      resp == Json(200, UserValue(db.Snapshot(), db.users[session.id.value]))
  {
    if !session.SignedIn? {
      return AuthRequired;
    }
    if session.id.None? {
      return Error(500, "Failed to get user profile");
    }
    var user := FindUser(db.Snapshot(), session.id.value);
    if user.None? {
      return Error(404, "User not found");
    }
    resp := Json(200, UserValue(db.Snapshot(), user.value));
  }

  // ---------------------------------------------------------------------
  // PUT: the field filters

  /** `updatedData[key]`, for a body that is not null (reading a property of null throws). */
  function Prop(body: Value, key: string): Value
    requires !body.Null? && !body.Undefined?
  {
    Get(body, key).value
  }

  /** The user columns a PUT may write: `name`, when it is a string. */
  function UserFields(body: Value): (m: map<string, Value>)
    requires !body.Null? && !body.Undefined?
    ensures m.Keys <= {"name"}
    ensures "name" in m <==> TypeOf(Prop(body, "name")) == "string"
    ensures "name" in m ==> m["name"] == Prop(body, "name")
  {
    if TypeOf(Prop(body, "name")) == "string" then map["name" := Prop(body, "name")] else map[]
  }

  /** Whether the PUT filter keeps `key` of the body: by its type, for the seven profile columns it knows. */
  predicate KeepsProfileKey(body: Value, key: string)
    requires !body.Null? && !body.Undefined?
  {
    || (key == "bio" && TypeOf(Prop(body, key)) == "string")
    || ((key == "skills" || key == "portfolio" || key == "endorsements") && IsArray(Prop(body, key)))
    || ((key == "xp" || key == "level" || key == "streak") && TypeOf(Prop(body, key)) == "number")
  }

  const ProfileKeys: set<string> := {"bio", "skills", "portfolio", "xp", "level", "streak", "endorsements"}

  /** The profile columns a PUT may write: bio if a string; skills, portfolio, endorsements if arrays; xp, level, streak if numbers. */
  function ProfileFields(body: Value): (m: map<string, Value>)
    requires !body.Null? && !body.Undefined?
    ensures forall k :: k in m <==> KeepsProfileKey(body, k)
    ensures forall k :: k in m ==> m[k] == Prop(body, k)
  {
    map k | k in ProfileKeys && KeepsProfileKey(body, k) :: Prop(body, k)
  }

  /** Title and location never reach the profile through this handler. */
  lemma TitleAndLocationIgnored(body: Value)
    requires !body.Null? && !body.Undefined?
    ensures "title" !in ProfileFields(body) && "location" !in ProfileFields(body)
    ensures "title" !in UserFields(body) && "location" !in UserFields(body)
  {
  }

  // ---------------------------------------------------------------------
  // PUT: the achievements replacement

  /**
   * The row data of one array element: title, description, icon and date.
   * `None` where the create throws: the element is null or undefined, or its
   * date does not parse. A falsy date takes the column default, `now`.
   */
  function AchievementData(ach: Value, now: int, parseDate: Value -> Option<int>): Option<(Value, Value, Value, int)> {
    if ach.Null? || ach.Undefined? then None
    else
      var at := Prop(ach, "achievedAt");
      if Truthy(at) then
        match parseDate(at)
        case None => None
        case Some(d) => Some((Prop(ach, "title"), Prop(ach, "description"), Prop(ach, "iconUrl"), d))
      else Some((Prop(ach, "title"), Prop(ach, "description"), Prop(ach, "iconUrl"), now))
  }

  /** One create per element, in order, stopping at the first that throws (`false`). */
  function CreateAll(t: Tables, pid: nat, achs: seq<Value>, now: int, parseDate: Value -> Option<int>): (Tables, bool)
    decreases |achs|
  {
    if achs == [] then (t, true)
    else match AchievementData(achs[0], now, parseDate)
      case None => (t, false)
      case Some((title, description, iconUrl, at)) =>
        CreateAll(CreateAchievement(t, pid, title, description, iconUrl, at).0, pid, achs[1..], now, parseDate)
  }

  lemma {:induction false} CreateAllWellFormed(t: Tables, pid: nat, achs: seq<Value>, now: int, parseDate: Value -> Option<int>)
    requires WellFormed(t)
    ensures WellFormed(CreateAll(t, pid, achs, now, parseDate).0)
    decreases |achs|
  {
    if achs != [] {
      match AchievementData(achs[0], now, parseDate)
      case None =>
      case Some((title, description, iconUrl, at)) =>
        CreateAchievementWellFormed(t, pid, title, description, iconUrl, at);
        CreateAllWellFormed(CreateAchievement(t, pid, title, description, iconUrl, at).0, pid, achs[1..], now, parseDate);
    }
  }

  /** The creates touch only the achievements and the id counter. */
  lemma {:induction false} CreateAllKeeps(t: Tables, pid: nat, achs: seq<Value>, now: int, parseDate: Value -> Option<int>)
    ensures CreateAll(t, pid, achs, now, parseDate).0.users == t.users
    ensures CreateAll(t, pid, achs, now, parseDate).0.byEmail == t.byEmail
    ensures CreateAll(t, pid, achs, now, parseDate).0.profiles == t.profiles
    decreases |achs|
  {
    if achs != [] {
      match AchievementData(achs[0], now, parseDate)
      case None =>
      case Some((title, description, iconUrl, at)) =>
        CreateAllKeeps(CreateAchievement(t, pid, title, description, iconUrl, at).0, pid, achs[1..], now, parseDate);
    }
  }

  lemma {:induction false} AchievementsOfAppend(xs: seq<AchievementRow>, ys: seq<AchievementRow>, pid: nat)
    ensures AchievementsOf(xs + ys, pid) == AchievementsOf(xs, pid) + AchievementsOf(ys, pid)
    decreases |xs|
  {
    if xs == [] {
      assert xs + ys == ys;
    } else {
      assert (xs + ys)[0] == xs[0];
      assert (xs + ys)[1..] == xs[1..] + ys;
      AchievementsOfAppend(xs[1..], ys, pid);
    }
  }

  /** Rows that all belong to `pid` are all kept. */
  lemma {:induction false} AchievementsOfOwn(xs: seq<AchievementRow>, pid: nat)
    requires forall i :: 0 <= i < |xs| ==> xs[i].profileId == pid
    ensures AchievementsOf(xs, pid) == xs
    decreases |xs|
  {
    if xs != [] {
      AchievementsOfOwn(xs[1..], pid);
    }
  }

  /** All elements of `achs` carry usable data. */
  predicate AllUsable(achs: seq<Value>, now: int, parseDate: Value -> Option<int>) {
    forall i :: 0 <= i < |achs| ==> AchievementData(achs[i], now, parseDate).Some?
  }

  /** The row a create makes from one element's data. */
  function RowOf(id: nat, pid: nat, d: (Value, Value, Value, int)): AchievementRow {
    AchievementRow(id, pid, d.0, d.1, d.2, d.3)
  }

  /** The rows the creates produce when every element is usable: consecutive ids from `firstId`, the elements' data, in order. */
  function NewRows(firstId: nat, pid: nat, achs: seq<Value>, now: int, parseDate: Value -> Option<int>): (rows: seq<AchievementRow>)
    requires AllUsable(achs, now, parseDate)
    ensures |rows| == |achs|
    decreases |achs|
  {
    if achs == [] then []
    else
      assert forall i :: 1 <= i < |achs| ==> achs[1..][i - 1] == achs[i];
      [RowOf(firstId, pid, AchievementData(achs[0], now, parseDate).value)] + NewRows(firstId + 1, pid, achs[1..], now, parseDate)
  }

  /** Row `i` of `NewRows` has id `firstId + i` and element `i`'s data. */
  lemma {:induction false} NewRowsAt(firstId: nat, pid: nat, achs: seq<Value>, now: int, parseDate: Value -> Option<int>, i: nat)
    requires AllUsable(achs, now, parseDate)
    requires i < |achs|
    ensures NewRows(firstId, pid, achs, now, parseDate)[i] == RowOf(firstId + i, pid, AchievementData(achs[i], now, parseDate).value)
    decreases |achs|
  {
    if i > 0 {
      assert forall j :: 1 <= j < |achs| ==> achs[1..][j - 1] == achs[j];
      NewRowsAt(firstId + 1, pid, achs[1..], now, parseDate, i - 1);
    }
  }

  /** When every element is usable, the creates succeed and append exactly `NewRows`. */
  lemma {:induction false} CreateAllAppends(t: Tables, pid: nat, achs: seq<Value>, now: int, parseDate: Value -> Option<int>)
    requires AllUsable(achs, now, parseDate)
    ensures CreateAll(t, pid, achs, now, parseDate).1
    ensures CreateAll(t, pid, achs, now, parseDate).0.achievements == t.achievements + NewRows(t.nextId, pid, achs, now, parseDate)
    decreases |achs|
  {
    if achs == [] {
      assert t.achievements + [] == t.achievements;
    } else {
      var d := AchievementData(achs[0], now, parseDate).value;
      var t1 := CreateAchievement(t, pid, d.0, d.1, d.2, d.3).0;
      assert t1.achievements == t.achievements + [RowOf(t.nextId, pid, d)];
      assert forall i :: 1 <= i < |achs| ==> achs[1..][i - 1] == achs[i];
      assert CreateAll(t, pid, achs, now, parseDate) == CreateAll(t1, pid, achs[1..], now, parseDate);
      CreateAllAppends(t1, pid, achs[1..], now, parseDate);
      assert t.achievements + NewRows(t.nextId, pid, achs, now, parseDate)
             == t1.achievements + NewRows(t1.nextId, pid, achs[1..], now, parseDate);
    }
  }

  /** Replace the profile's achievements: delete them all, then create one per element. */
  function ReplaceAchievements(t: Tables, pid: nat, achs: seq<Value>, now: int, parseDate: Value -> Option<int>): (Tables, bool) {
    CreateAll(DeleteAchievements(t, pid), pid, achs, now, parseDate)
  }

  // ---------------------------------------------------------------------
  // PUT: the handler

  const PutFailed := Error(500, "Failed to update user profile")

  /** The profile after the update-or-create step, with the tables; `None` when the create throws. */
  function ProfileStep(t: Tables, uid: UserId, fields: map<string, Value>): Option<(Tables, Option<ProfileRow>)> {
    match FindProfile(t, uid)
    case Some(p) => Some((UpdateProfile(t, uid, fields).value.0, Some(p)))
    case None =>
      if |fields| > 0 then
        match CreateProfile(t, uid, fields)
        case None => None
        case Some((t', p)) => Some((t', Some(p)))
      else Some((t, None))
  }

  /** The user update, issued only when there is something to write; `None` when it throws. */
  function UserStep(t: Tables, uid: UserId, fields: map<string, Value>): Option<Tables> {
    if |fields| == 0 then Some(t)
    else match UpdateUser(t, uid, fields)
      case None => None
      case Some((t', _)) => Some(t')
  }

  /** The achievements step: a replacement when an array was sent and there is a profile, otherwise nothing. */
  function AchievementsStep(t2: Tables, profile: Option<ProfileRow>, achievements: Value, now: int, parseDate: Value -> Option<int>): (Tables, bool) {
    if IsArray(achievements) && profile.Some?
    then ReplaceAchievements(t2, profile.value.id, achievements.items, now, parseDate)
    else (t2, true)
  }

  /** The answer after the writes: 500 when one threw, otherwise the refetched user (404 when it is gone). */
  function Finish(r: (Tables, bool), uid: UserId): (Tables, Response) {
    if !r.1 then (r.0, PutFailed)
    else if uid !in r.0.users then (r.0, Error(404, "User not found after update"))
    else (r.0, Json(200, UserValue(r.0, r.0.users[uid])))
  }

  /** The writes and the answer for a signed-in user `uid`, given the body's filtered fields and its `achievements`. */
  function AcceptedOutcome(t: Tables, uid: UserId, userFields: map<string, Value>, profileFields: map<string, Value>,
                           achievements: Value, now: int, parseDate: Value -> Option<int>): (Tables, Response)
  {
    match UserStep(t, uid, userFields)
    case None => (t, PutFailed)
    case Some(t1) =>
      match ProfileStep(t1, uid, profileFields)
      case None => (t1, PutFailed)
      case Some((t2, profile)) => Finish(AchievementsStep(t2, profile, achievements, now, parseDate), uid)
  }

  /** The PUT handler's effect on the tables and its response; `None` is a body that is not JSON. */
  function PutOutcome(t: Tables, session: AuthSession, body: Option<Value>, now: int, parseDate: Value -> Option<int>): (Tables, Response) {
    if !session.SignedIn? then (t, AuthRequired)
    else if body.None? || body.value.Null? || body.value.Undefined? || session.id.None? then (t, PutFailed)
    else AcceptedOutcome(t, session.id.value, UserFields(body.value), ProfileFields(body.value), Prop(body.value, "achievements"), now, parseDate)
  }

  /** The user update of the PUT handler, on the store. */
  method RunUserStep(db: Store, uid: UserId, fields: map<string, Value>) returns (ok: bool)
    requires db.Valid()
    modifies db
    ensures db.Valid()
    ensures var step := UserStep(old(db.Snapshot()), uid, fields);
            if step.None? then !ok && db.Snapshot() == old(db.Snapshot())
            else ok && db.Snapshot() == step.value
  {
    if |fields| > 0 {
      ghost var before := db.Snapshot();
      var updated := db.UpdateUserRow(uid, fields);
      if updated.None? {
        return false;
      }
      UpdateUserWellFormed(before, uid, fields);
    }
    return true;
  }

  /** The update-or-create step of the PUT handler, on the store. */
  method RunProfileStep(db: Store, uid: UserId, fields: map<string, Value>) returns (r: Option<Option<ProfileRow>>)
    requires db.Valid()
    modifies db
    ensures db.Valid()
    ensures var step := ProfileStep(old(db.Snapshot()), uid, fields);
            if step.None? then r.None? && db.Snapshot() == old(db.Snapshot())
            else r == Some(step.value.1) && db.Snapshot() == step.value.0
  {
    var profile := FindProfile(db.Snapshot(), uid);
    if profile.Some? {
      UpdateProfileWellFormed(db.Snapshot(), uid, fields);
      var _ := db.UpdateProfileRow(uid, fields);
      return Some(profile);
    } else if |fields| > 0 {
      ghost var before := db.Snapshot();
      var created := db.CreateProfileRow(uid, fields);
      if created.None? {
        return None;
      }
      CreateProfileWellFormed(before, uid, fields);
      return Some(created);
    }
    return Some(None);
  }

  /** The achievements replacement, on the store: a delete, then one create per element. */
  method ReplaceAchievementRows(db: Store, pid: nat, achs: seq<Value>, now: int, parseDate: Value -> Option<int>) returns (ok: bool)
    requires db.Valid()
    modifies db
    ensures db.Valid()
    ensures (db.Snapshot(), ok) == ReplaceAchievements(old(db.Snapshot()), pid, achs, now, parseDate)
  {
    DeleteAchievementsWellFormed(db.Snapshot(), pid);
    db.DeleteAchievementRows(pid);
    ghost var afterDelete := db.Snapshot();
    var i := 0;
    while i < |achs|
      invariant 0 <= i <= |achs|
      invariant db.Valid()
      invariant CreateAll(afterDelete, pid, achs, now, parseDate) == CreateAll(db.Snapshot(), pid, achs[i..], now, parseDate)
    {
      assert achs[i..][1..] == achs[i + 1..];
      var row := AchievementData(achs[i], now, parseDate);
      if row.None? {
        return false;
      }
      var (title, description, iconUrl, at) := row.value;
      CreateAchievementWellFormed(db.Snapshot(), pid, title, description, iconUrl, at);
      var _ := db.CreateAchievementRow(pid, title, description, iconUrl, at);
      i := i + 1;
    }
    return true;
  }

  /** The PUT handler, on the store. */
  method HandlePut(db: Store, session: AuthSession, body: Option<Value>, now: int, parseDate: Value -> Option<int>) returns (resp: Response)
    requires db.Valid()
    modifies db
    ensures db.Valid()
    ensures (db.Snapshot(), resp) == PutOutcome(old(db.Snapshot()), session, body, now, parseDate)
  {
    if !session.SignedIn? {
      return AuthRequired;
    }
    if body.None? || body.value.Null? || body.value.Undefined? || session.id.None? {
      return PutFailed;
    }
    var data := body.value;
    var uid := session.id.value;
    var userFields := UserFields(data);
    var profileFields := ProfileFields(data);
    var userOk := RunUserStep(db, uid, userFields);
    if !userOk {
      return PutFailed;
    }
    var profile := RunProfileStep(db, uid, profileFields);
    if profile.None? {
      return PutFailed;
    }
    var achievements := Prop(data, "achievements");
    if IsArray(achievements) && profile.value.Some? {
      var ok := ReplaceAchievementRows(db, profile.value.value.id, achievements.items, now, parseDate);
      if !ok {
        return PutFailed;
      }
    }
    var user := FindUser(db.Snapshot(), uid);
    if user.None? {
      return Error(404, "User not found after update");
    }
    resp := Json(200, UserValue(db.Snapshot(), user.value));
  }

  // ---------------------------------------------------------------------
  // PUT: what it does to the tables and what it answers

  /** The request gets past the session check and the body parses to something other than null. */
  predicate Accepted(session: AuthSession, body: Option<Value>) {
    session.SignedIn? && session.id.Some? && body.Some? && !body.value.Null? && !body.value.Undefined?
  }

  /** Without a signed-in session, or with a body that cannot be read, nothing is written. */
  lemma PutRejected(t: Tables, session: AuthSession, body: Option<Value>, now: int, parseDate: Value -> Option<int>)
    requires !Accepted(session, body)
    ensures PutOutcome(t, session, body, now, parseDate).0 == t
    ensures PutOutcome(t, session, body, now, parseDate).1 == (if session.SignedIn? then PutFailed else AuthRequired)
  {
  }

  /** The user step leaves profiles, achievements and the id counter alone, and succeeds exactly when there is nothing to write or the user exists. */
  lemma UserStepKeeps(t: Tables, uid: UserId, fields: map<string, Value>)
    ensures UserStep(t, uid, fields).Some? <==> |fields| == 0 || uid in t.users
    ensures UserStep(t, uid, fields).Some? ==>
      var t1 := UserStep(t, uid, fields).value;
      && t1.profiles == t.profiles && t1.achievements == t.achievements && t1.nextId == t.nextId
      && t1.users.Keys == t.users.Keys
      && (forall id :: id in t.users && id != uid ==> t1.users[id] == t.users[id])
      && (uid in t.users ==> t1.users[uid] == UpdatedUserRow(t.users[uid], fields))
  {
  }

  /**
   * The profile step leaves users, achievements and the other profiles
   * alone: an existing profile gets the fields written over its columns, a
   * missing one is created with them when there is at least one, and the
   * create throws only when the owner is gone.
   */
  lemma ProfileStepKeeps(t1: Tables, uid: UserId, fields: map<string, Value>)
    ensures ProfileStep(t1, uid, fields).None? <==> uid !in t1.profiles && |fields| > 0 && uid !in t1.users
    ensures ProfileStep(t1, uid, fields).Some? ==>
      var (t2, profile) := ProfileStep(t1, uid, fields).value;
      && t2.users == t1.users && t2.achievements == t1.achievements
      && (forall u :: u in t1.profiles && u != uid ==> u in t2.profiles && t2.profiles[u] == t1.profiles[u])
      && (uid in t1.profiles ==> t2.nextId == t1.nextId && profile == Some(t1.profiles[uid])
                                 && t2.profiles == t1.profiles[uid := t1.profiles[uid].(fields := t1.profiles[uid].fields + fields)])
      && (uid !in t1.profiles && |fields| > 0 ==> profile == Some(ProfileRow(t1.nextId, uid, fields))
                                                  && t2.profiles == t1.profiles[uid := profile.value])
      && (uid !in t1.profiles && |fields| == 0 ==> t2 == t1 && profile.None?)
  {
  }

  /** The achievements step leaves users and profiles alone. */
  lemma AchievementsStepKeeps(t2: Tables, profile: Option<ProfileRow>, achievements: Value, now: int, parseDate: Value -> Option<int>)
    ensures AchievementsStep(t2, profile, achievements, now, parseDate).0.users == t2.users
    ensures AchievementsStep(t2, profile, achievements, now, parseDate).0.profiles == t2.profiles
  {
    if IsArray(achievements) && profile.Some? {
      CreateAllKeeps(DeleteAchievements(t2, profile.value.id), profile.value.id, achievements.items, now, parseDate);
    }
  }

  /**
   * Users: no row appears or disappears, no other user changes, and the
   * signed-in user's row changes only in its name, and only when the body
   * sent a string for it.
   */
  lemma PutUserEffect(t: Tables, session: AuthSession, body: Option<Value>, now: int, parseDate: Value -> Option<int>)
    requires Accepted(session, body)
    ensures var t' := PutOutcome(t, session, body, now, parseDate).0;
            var uid := session.id.value;
            && t'.users.Keys == t.users.Keys
            && (forall id :: id in t.users && id != uid ==> t'.users[id] == t.users[id])
            && (uid in t.users ==> t'.users[uid] == UpdatedUserRow(t.users[uid], UserFields(body.value)))
  {
    var data := body.value;
    var uid := session.id.value;
    UserStepKeeps(t, uid, UserFields(data));
    var u := UserStep(t, uid, UserFields(data));
    if u.Some? {
      var step := ProfileStep(u.value, uid, ProfileFields(data));
      if step.Some? {
        ProfileStepKeeps(u.value, uid, ProfileFields(data));
        AchievementsStepKeeps(step.value.0, step.value.1, Prop(data, "achievements"), now, parseDate);
      }
    } else {
      assert |UserFields(data)| > 0 && uid !in t.users;
    }
  }

  /** An existing profile gets the filtered fields written over its columns; the other columns keep their values. */
  lemma PutUpdatesProfile(t: Tables, session: AuthSession, body: Option<Value>, now: int, parseDate: Value -> Option<int>)
    requires Accepted(session, body)
    requires session.id.value in t.users && session.id.value in t.profiles
    ensures var t' := PutOutcome(t, session, body, now, parseDate).0;
            var uid := session.id.value;
            uid in t'.profiles && t'.profiles[uid] == t.profiles[uid].(fields := t.profiles[uid].fields + ProfileFields(body.value))
  {
    var data := body.value;
    var uid := session.id.value;
    UserStepKeeps(t, uid, UserFields(data));
    var t1 := UserStep(t, uid, UserFields(data)).value;
    var step := ProfileStep(t1, uid, ProfileFields(data));
    AchievementsStepKeeps(step.value.0, step.value.1, Prop(data, "achievements"), now, parseDate);
  }

  /** A user without a profile gets one holding exactly the filtered fields, when there is at least one. */
  lemma PutCreatesProfile(t: Tables, session: AuthSession, body: Option<Value>, now: int, parseDate: Value -> Option<int>)
    requires Accepted(session, body)
    requires session.id.value in t.users && session.id.value !in t.profiles && |ProfileFields(body.value)| > 0
    ensures var t' := PutOutcome(t, session, body, now, parseDate).0;
            var uid := session.id.value;
            uid in t'.profiles && t'.profiles[uid] == ProfileRow(t.nextId, uid, ProfileFields(body.value))
  {
    var data := body.value;
    var uid := session.id.value;
    UserStepKeeps(t, uid, UserFields(data));
    var t1 := UserStep(t, uid, UserFields(data)).value;
    ProfileStepKeeps(t1, uid, ProfileFields(data));
    var step := ProfileStep(t1, uid, ProfileFields(data)).value;
    AchievementsStepKeeps(step.0, step.1, Prop(data, "achievements"), now, parseDate);
  }

  /** A user without a profile who sends no profile field gets none, and achievements sent with it are dropped. */
  lemma PutNoProfileNoFields(t: Tables, session: AuthSession, body: Option<Value>, now: int, parseDate: Value -> Option<int>)
    requires Accepted(session, body)
    requires session.id.value !in t.profiles && ProfileFields(body.value) == map[]
    ensures PutOutcome(t, session, body, now, parseDate).0.profiles == t.profiles
    ensures PutOutcome(t, session, body, now, parseDate).0.achievements == t.achievements
  {
    UserStepKeeps(t, session.id.value, UserFields(body.value));
  }

  /** Rows of one profile hold nothing for any other. */
  lemma AchievementsOfOther(xs: seq<AchievementRow>, pid: nat, q: nat)
    requires forall i :: 0 <= i < |xs| ==> xs[i].profileId == pid
    requires q != pid
    ensures AchievementsOf(xs, q) == []
  {
  }

  /** After the delete and the creates, the profile holds exactly the new rows and every other profile what it held. */
  lemma ReplaceAchievementsEffect(t2: Tables, pid: nat, achs: seq<Value>, now: int, parseDate: Value -> Option<int>)
    requires AllUsable(achs, now, parseDate)
    ensures var r := ReplaceAchievements(t2, pid, achs, now, parseDate);
            && r.1
            && AchievementsOf(r.0.achievements, pid) == NewRows(t2.nextId, pid, achs, now, parseDate)
            && (forall q :: q != pid ==> AchievementsOf(r.0.achievements, q) == AchievementsOf(t2.achievements, q))
  {
    var td := DeleteAchievements(t2, pid);
    CreateAllAppends(td, pid, achs, now, parseDate);
    var rows := NewRows(t2.nextId, pid, achs, now, parseDate);
    forall i | 0 <= i < |rows|
      ensures rows[i].profileId == pid
    {
      NewRowsAt(t2.nextId, pid, achs, now, parseDate, i);
    }
    var after := CreateAll(td, pid, achs, now, parseDate).0.achievements;
    assert after == WithoutProfile(t2.achievements, pid) + rows;
    AchievementsOfAppend(WithoutProfile(t2.achievements, pid), rows, pid);
    DeleteLeavesNone(t2.achievements, pid);
    AchievementsOfOwn(rows, pid);
    forall q | q != pid
      ensures AchievementsOf(after, q) == AchievementsOf(t2.achievements, q)
    {
      AchievementsOfAppend(WithoutProfile(t2.achievements, pid), rows, q);
      AchievementsOfOther(rows, pid, q);
    }
  }

  /**
   * Achievements sent as an array whose every element can be created
   * replace the profile's achievements with exactly one row per element, in
   * order; the other profiles' achievements are untouched, and the answer is
   * the refetched user.
   */
  lemma PutReplacesAchievements(t: Tables, session: AuthSession, body: Option<Value>, now: int, parseDate: Value -> Option<int>)
    requires Accepted(session, body)
    requires session.id.value in t.users && session.id.value in t.profiles
    requires IsArray(Prop(body.value, "achievements")) && AllUsable(Prop(body.value, "achievements").items, now, parseDate)
    ensures var (t', resp) := PutOutcome(t, session, body, now, parseDate);
            var uid := session.id.value;
            var pid := t.profiles[uid].id;
            && AchievementsOf(t'.achievements, pid) == NewRows(t.nextId, pid, Prop(body.value, "achievements").items, now, parseDate)
            && (forall q :: q != pid ==> AchievementsOf(t'.achievements, q) == AchievementsOf(t.achievements, q))
            && uid in t'.users && resp == Json(200, UserValue(t', t'.users[uid]))
  {
    var data := body.value;
    var uid := session.id.value;
    UserStepKeeps(t, uid, UserFields(data));
    var t1 := UserStep(t, uid, UserFields(data)).value;
    var step := ProfileStep(t1, uid, ProfileFields(data));
    ProfileStepKeeps(t1, uid, ProfileFields(data));
    assert step.value.1 == Some(t.profiles[uid]);
    ReplaceAchievementsEffect(step.value.0, t.profiles[uid].id, Prop(data, "achievements").items, now, parseDate);
    AchievementsStepKeeps(step.value.0, step.value.1, Prop(data, "achievements"), now, parseDate);
  }

  /**
   * The writes are not undone on failure: when the first element of the
   * achievements cannot be created the answer is 500, yet the profile's old
   * achievements are already deleted and the user's name already written.
   */
  lemma PutPartialFailure(t: Tables, session: AuthSession, body: Option<Value>, now: int, parseDate: Value -> Option<int>)
    requires Accepted(session, body)
    requires session.id.value in t.users && session.id.value in t.profiles
    requires IsArray(Prop(body.value, "achievements")) && Prop(body.value, "achievements").items != []
    requires AchievementData(Prop(body.value, "achievements").items[0], now, parseDate).None?
    ensures var (t', resp) := PutOutcome(t, session, body, now, parseDate);
            var uid := session.id.value;
            && resp == PutFailed
            && AchievementsOf(t'.achievements, t.profiles[uid].id) == []
            && uid in t'.users && t'.users[uid] == UpdatedUserRow(t.users[uid], UserFields(body.value))
  {
    var data := body.value;
    var uid := session.id.value;
    UserStepKeeps(t, uid, UserFields(data));
    var t1 := UserStep(t, uid, UserFields(data)).value;
    var step := ProfileStep(t1, uid, ProfileFields(data));
    ProfileStepKeeps(t1, uid, ProfileFields(data));
    DeleteLeavesNone(step.value.0.achievements, t.profiles[uid].id);
    PutUserEffect(t, session, body, now, parseDate);
  }

  /** The shape of the user the routes answer with: no password, and a profile (or null) without xp, level, streak or endorsements. */
  predicate PublicAnswer(v: Value) {
    && v.Obj? && "password" !in v.fields && "profile" in v.fields
    && var p := v.fields["profile"];
       (p.Null? || (p.Obj? && "xp" !in p.fields && "level" !in p.fields && "streak" !in p.fields && "endorsements" !in p.fields))
  }

  lemma UserValueIsPublic(t: Tables, u: UserRow)
    ensures PublicAnswer(UserValue(t, u))
  {
    PublicKeys();
  }

  lemma PublicKeys()
    ensures "password" !in {"id", "name", "email", "role", "profile"}
    ensures var ks := {"id", "bio", "skills", "portfolio", "achievement"};
            "xp" !in ks && "level" !in ks && "streak" !in ks && "endorsements" !in ks
  {
  }

  /** A successful answer of `Finish` is the refetched user in that shape. */
  lemma FinishShape(r: (Tables, bool), uid: UserId)
    requires Finish(r, uid).1.Status() == 200
    ensures Finish(r, uid).1.Json? && PublicAnswer(Finish(r, uid).1.body)
  {
    UserValueIsPublic(r.0, r.0.users[uid]);
  }

  /** So every 200 answer of the PUT has that shape, even when the PUT just wrote xp, level or streak. */
  lemma PutAnswerShape(t: Tables, session: AuthSession, body: Option<Value>, now: int, parseDate: Value -> Option<int>)
    requires PutOutcome(t, session, body, now, parseDate).1.Status() == 200
    ensures PutOutcome(t, session, body, now, parseDate).1.Json? && PublicAnswer(PutOutcome(t, session, body, now, parseDate).1.body)
  {
    if Accepted(session, body) {
      var data := body.value;
      var uid := session.id.value;
      var u := UserStep(t, uid, UserFields(data));
      assert u.Some?;
      var step := ProfileStep(u.value, uid, ProfileFields(data));
      assert step.Some?;
      FinishShape(AchievementsStep(step.value.0, step.value.1, Prop(data, "achievements"), now, parseDate), uid);
    }
  }
}
