/**
 * The persistent tables behind the API routes, as in-memory maps: users
 * (with a unique e-mail index), one profile per user, and achievement rows
 * that point at a profile. Every id comes from one counter.
 *
 * The pure `Tables` value and its operations say what each database call
 * does; the class `Store` holds the same tables in fields and its methods
 * are proved equal to those operations.
 */
module Db {
  import opened Wrappers
  import opened Js

  type UserId = nat

  datatype Role = Freelancer | Client

  /** The enum's wire name. */
  function RoleName(r: Role): (s: string)
    ensures s == "FREELANCER" || s == "CLIENT"
  {
    match r
    case Freelancer => "FREELANCER"
    case Client => "CLIENT"
  }

  /** The inverse of `RoleName` on the two enum names, and nothing else. */
  function ParseRole(s: string): (r: Option<Role>)
    ensures r.Some? <==> (s == "FREELANCER" || s == "CLIENT")
  {
    if s == "FREELANCER" then Some(Freelancer) else if s == "CLIENT" then Some(Client) else None
  }

  lemma RoleNameRoundTrip(r: Role, s: string)
    ensures ParseRole(RoleName(r)) == Some(r)
    ensures ParseRole(s).Some? ==> RoleName(ParseRole(s).value) == s
  {
  }

  datatype UserRow = UserRow(id: UserId, name: Value, email: string, password: string, role: Role, avatar: Value)

  /** A profile row: its own id, its owner and its column values by column name. */
  datatype ProfileRow = ProfileRow(id: nat, userId: UserId, fields: map<string, Value>)

  datatype AchievementRow = AchievementRow(id: nat, profileId: nat, title: Value, description: Value, iconUrl: Value, achievedAt: int)

  datatype Tables = Tables(
    users: map<UserId, UserRow>,
    byEmail: map<string, UserId>,
    profiles: map<UserId, ProfileRow>,
    achievements: seq<AchievementRow>,
    nextId: nat)

  /** Keys and ids agree, the e-mail index is exact, every profile has an existing owner, and ids are below the counter. */
  ghost predicate WellFormed(t: Tables) {
    && (forall id :: id in t.users ==>
          && t.users[id].id == id && id < t.nextId
          && t.users[id].email in t.byEmail && t.byEmail[t.users[id].email] == id)
    && (forall e :: e in t.byEmail ==> t.byEmail[e] in t.users && t.users[t.byEmail[e]].email == e)
    && (forall u :: u in t.profiles ==> u in t.users && t.profiles[u].userId == u && t.profiles[u].id < t.nextId)
    && (forall u, v :: u in t.profiles && v in t.profiles && u != v ==> t.profiles[u].id != t.profiles[v].id)
    && (forall i :: 0 <= i < |t.achievements| ==> t.achievements[i].id < t.nextId)
  }

  const Empty := Tables(map[], map[], map[], [], 0)

  lemma EmptyWellFormed()
    ensures WellFormed(Empty)
  {
  }

  /** `user.findUnique({where: {email}})` */
  function FindUserByEmail(t: Tables, email: string): (r: Option<UserRow>)
    ensures WellFormed(t) ==> (r.Some? <==> exists id :: id in t.users && t.users[id].email == email)
    ensures WellFormed(t) && r.Some? ==> r.value in t.users.Values && r.value.email == email
  {
    if email in t.byEmail && t.byEmail[email] in t.users then Some(t.users[t.byEmail[email]]) else None
  }

  /** `user.findUnique({where: {id}})` */
  function FindUser(t: Tables, id: UserId): Option<UserRow> {
    if id in t.users then Some(t.users[id]) else None
  }

  /** `user.create`: a fresh id, no avatar; only valid for an e-mail not yet taken. */
  function CreateUser(t: Tables, name: Value, email: string, password: string, role: Role): (r: (Tables, UserRow))
    requires email !in t.byEmail
  {
    var row := UserRow(t.nextId, name, email, password, role, Null);
    (t.(users := t.users[t.nextId := row], byEmail := t.byEmail[email := t.nextId], nextId := t.nextId + 1), row)
  }

  lemma CreateUserWellFormed(t: Tables, name: Value, email: string, password: string, role: Role)
    requires WellFormed(t) && email !in t.byEmail
    ensures WellFormed(CreateUser(t, name, email, password, role).0)
    ensures FindUserByEmail(CreateUser(t, name, email, password, role).0, email) == Some(CreateUser(t, name, email, password, role).1)
  {
    assert t.nextId !in t.users;
  }

  /** The columns a user update may set, taken from `data`: `name` and `avatar`. */
  function UpdatedUserRow(row: UserRow, data: map<string, Value>): (r: UserRow)
    ensures r.name == (if "name" in data then data["name"] else row.name)
    ensures r.avatar == (if "avatar" in data then data["avatar"] else row.avatar)
    ensures r.id == row.id && r.email == row.email && r.password == row.password && r.role == row.role
  {
    row.(name := if "name" in data then data["name"] else row.name,
         avatar := if "avatar" in data then data["avatar"] else row.avatar)
  }

  /** `user.update({where: {id}, data})`; `None` when there is no such record (the call throws). */
  function UpdateUser(t: Tables, id: UserId, data: map<string, Value>): (r: Option<(Tables, UserRow)>)
    ensures r.Some? <==> id in t.users
    ensures r.Some? ==> r.value.1 == UpdatedUserRow(t.users[id], data) && r.value.0 == t.(users := t.users[id := r.value.1])
  {
    if id in t.users then
      var row := UpdatedUserRow(t.users[id], data);
      Some((t.(users := t.users[id := row]), row))
    else None
  }

  lemma UpdateUserWellFormed(t: Tables, id: UserId, data: map<string, Value>)
    requires WellFormed(t) && UpdateUser(t, id, data).Some?
    ensures WellFormed(UpdateUser(t, id, data).value.0)
  {
  }

  /** `profile.findUnique({where: {userId}})` */
  function FindProfile(t: Tables, userId: UserId): Option<ProfileRow> {
    if userId in t.profiles then Some(t.profiles[userId]) else None
  }

  /**
   * `profile.create({data: {userId, ...data}})`; `None` when the owner does
   * not exist (foreign key) or already has a profile (unique owner).
   */
  function CreateProfile(t: Tables, userId: UserId, data: map<string, Value>): (r: Option<(Tables, ProfileRow)>)
    ensures r.Some? <==> userId in t.users && userId !in t.profiles
    ensures r.Some? ==> r.value.1 == ProfileRow(t.nextId, userId, data)
                        && r.value.0 == t.(profiles := t.profiles[userId := r.value.1], nextId := t.nextId + 1)
  {
    if userId in t.users && userId !in t.profiles then
      var row := ProfileRow(t.nextId, userId, data);
      Some((t.(profiles := t.profiles[userId := row], nextId := t.nextId + 1), row))
    else None
  }

  lemma CreateProfileWellFormed(t: Tables, userId: UserId, data: map<string, Value>)
    requires WellFormed(t) && CreateProfile(t, userId, data).Some?
    ensures WellFormed(CreateProfile(t, userId, data).value.0)
  {
  }

  /** `profile.update({where: {userId}, data})`: the given columns are overwritten, the rest kept; `None` when there is no profile. */
  function UpdateProfile(t: Tables, userId: UserId, data: map<string, Value>): (r: Option<(Tables, ProfileRow)>)
    ensures r.Some? <==> userId in t.profiles
    ensures r.Some? ==> r.value.1 == t.profiles[userId].(fields := t.profiles[userId].fields + data)
                        && r.value.0 == t.(profiles := t.profiles[userId := r.value.1])
  {
    if userId in t.profiles then
      var row := t.profiles[userId].(fields := t.profiles[userId].fields + data);
      Some((t.(profiles := t.profiles[userId := row]), row))
    else None
  }

  lemma UpdateProfileWellFormed(t: Tables, userId: UserId, data: map<string, Value>)
    requires WellFormed(t) && UpdateProfile(t, userId, data).Some?
    ensures WellFormed(UpdateProfile(t, userId, data).value.0)
  {
  }

  /** The rows not belonging to profile `pid`, in their order. */
  function WithoutProfile(xs: seq<AchievementRow>, pid: nat): (r: seq<AchievementRow>)
    ensures |r| <= |xs|
    ensures forall i :: 0 <= i < |r| ==> r[i].profileId != pid && r[i] in xs
    ensures forall x :: x in xs && x.profileId != pid ==> x in r
  {
    if xs == [] then []
    else if xs[0].profileId == pid then WithoutProfile(xs[1..], pid)
    else [xs[0]] + WithoutProfile(xs[1..], pid)
  }

  /** `achievement.deleteMany({where: {profileId}})` */
  function DeleteAchievements(t: Tables, pid: nat): (r: Tables)
  {
    t.(achievements := WithoutProfile(t.achievements, pid))
  }

  lemma DeleteAchievementsWellFormed(t: Tables, pid: nat)
    requires WellFormed(t)
    ensures WellFormed(DeleteAchievements(t, pid))
  {
  }

  /** `achievement.create`: a fresh id, appended at the end. */
  function CreateAchievement(t: Tables, pid: nat, title: Value, description: Value, iconUrl: Value, achievedAt: int): (r: (Tables, AchievementRow))
  {
    var row := AchievementRow(t.nextId, pid, title, description, iconUrl, achievedAt);
    (t.(achievements := t.achievements + [row], nextId := t.nextId + 1), row)
  }

  lemma CreateAchievementWellFormed(t: Tables, pid: nat, title: Value, description: Value, iconUrl: Value, achievedAt: int)
    requires WellFormed(t)
    ensures WellFormed(CreateAchievement(t, pid, title, description, iconUrl, achievedAt).0)
  {
  }

  /** The rows of profile `pid`, in table order. */
  function AchievementsOf(xs: seq<AchievementRow>, pid: nat): (r: seq<AchievementRow>)
    ensures forall i :: 0 <= i < |r| ==> r[i].profileId == pid && r[i] in xs
    ensures forall x :: x in xs && x.profileId == pid ==> x in r
  {
    if xs == [] then []
    else if xs[0].profileId == pid then [xs[0]] + AchievementsOf(xs[1..], pid)
    else AchievementsOf(xs[1..], pid)
  }

  /** After deleting a profile's rows, none of them is left. */
  lemma {:induction false} DeleteLeavesNone(xs: seq<AchievementRow>, pid: nat)
    ensures AchievementsOf(WithoutProfile(xs, pid), pid) == []
    ensures forall q :: q != pid ==> AchievementsOf(WithoutProfile(xs, pid), q) == AchievementsOf(xs, q)
  {
    if xs != [] {
      DeleteLeavesNone(xs[1..], pid);
    }
  }

  /** The database, as a mutable object. */
  class Store {
    var users: map<UserId, UserRow>
    var byEmail: map<string, UserId>
    var profiles: map<UserId, ProfileRow>
    var achievements: seq<AchievementRow>
    var nextId: nat

    function Snapshot(): Tables
      reads this
    {
      Tables(users, byEmail, profiles, achievements, nextId)
    }

    ghost predicate Valid()
      reads this
    {
      WellFormed(Snapshot())
    }

    constructor ()
      ensures Snapshot() == Empty && Valid()
    {
      users := map[];
      byEmail := map[];
      profiles := map[];
      achievements := [];
      nextId := 0;
    }

    method CreateUserRow(name: Value, email: string, password: string, role: Role) returns (row: UserRow)
      requires email !in byEmail
      modifies this
      ensures (Snapshot(), row) == CreateUser(old(Snapshot()), name, email, password, role)
    {
      row := UserRow(nextId, name, email, password, role, Null);
      users := users[nextId := row];
      byEmail := byEmail[email := nextId];
      nextId := nextId + 1;
    }

    method UpdateUserRow(id: UserId, data: map<string, Value>) returns (row: Option<UserRow>)
      modifies this
      ensures var r := UpdateUser(old(Snapshot()), id, data);
              if r.Some? then Snapshot() == r.value.0 && row == Some(r.value.1) else Snapshot() == old(Snapshot()) && row.None?
    {
      if id in users {
        var updated := UpdatedUserRow(users[id], data);
        users := users[id := updated];
        row := Some(updated);
      } else {
        row := None;
      }
    }

    method CreateProfileRow(userId: UserId, data: map<string, Value>) returns (row: Option<ProfileRow>)
      modifies this
      ensures var r := CreateProfile(old(Snapshot()), userId, data);
              if r.Some? then Snapshot() == r.value.0 && row == Some(r.value.1) else Snapshot() == old(Snapshot()) && row.None?
    {
      if userId in users && userId !in profiles {
        var created := ProfileRow(nextId, userId, data);
        profiles := profiles[userId := created];
        nextId := nextId + 1;
        row := Some(created);
      } else {
        row := None;
      }
    }

    method UpdateProfileRow(userId: UserId, data: map<string, Value>) returns (row: Option<ProfileRow>)
      modifies this
      ensures var r := UpdateProfile(old(Snapshot()), userId, data);
              if r.Some? then Snapshot() == r.value.0 && row == Some(r.value.1) else Snapshot() == old(Snapshot()) && row.None?
    {
      if userId in profiles {
        var updated := profiles[userId].(fields := profiles[userId].fields + data);
        profiles := profiles[userId := updated];
        row := Some(updated);
      } else {
        row := None;
      }
    }

    method DeleteAchievementRows(pid: nat)
      modifies this
      ensures Snapshot() == DeleteAchievements(old(Snapshot()), pid)
    {
      achievements := WithoutProfile(achievements, pid);
    }

    method CreateAchievementRow(pid: nat, title: Value, description: Value, iconUrl: Value, achievedAt: int) returns (row: AchievementRow)
      modifies this
      ensures (Snapshot(), row) == CreateAchievement(old(Snapshot()), pid, title, description, iconUrl, achievedAt)
    {
      row := AchievementRow(nextId, pid, title, description, iconUrl, achievedAt);
      achievements := achievements + [row];
      nextId := nextId + 1;
    }
  }
}
