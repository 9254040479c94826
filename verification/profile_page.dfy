/**
 * The profile page: the profile completion figure and its task list, the
 * gamification figures with their defaults, the body the save button sends
 * to `PUT /api/auth/me`, and the local update after a successful save.
 *
 * The page state holds the JSON the `me` route answered, read through the
 * page's own declared types: a field of another type than declared reads
 * as absent.
 */
module ProfilePage {
  import opened Wrappers
  import opened Js
  import Db
  import MeRoute

  /** The profile part of the fetched record; `None` is a field that is absent or null. */
  datatype ProfileData = ProfileData(
    bio: Option<string>,
    skills: Option<seq<Value>>,
    portfolio: Option<seq<Value>>,
    xp: Option<int>,
    level: Option<int>,
    streak: Option<int>,
    title: Option<string>,
    location: Option<string>)

  /** The fetched record, as far as the modelled logic reads it. */
  datatype Profile = Profile(name: Option<string>, profile: Option<ProfileData>)

  /** The edit dialog's fields. */
  datatype EditData = EditData(name: string, title: string, location: string, bio: string)

  datatype XpAnimation = XpAnimation(amount: int, isShowing: bool)

  const NoProfileData := ProfileData(None, None, None, None, None, None, None, None)

  // ---------------------------------------------------------------------
  // Reading the fetched JSON

  function StrField(v: Value, key: string): Option<string> {
    match OptGet(v, key)
    case Str(s) => Some(s)
    case _ => None
  }

  function ArrField(v: Value, key: string): Option<seq<Value>> {
    match OptGet(v, key)
    case Arr(xs) => Some(xs)
    case _ => None
  }

  function NumField(v: Value, key: string): Option<int> {
    match OptGet(v, key)
    case Num(n) => Some(n)
    case _ => None
  }

  /** The record the page keeps from a fetched JSON object. */
  function Decode(v: Value): Profile {
    var p := OptGet(v, "profile");
    Profile(StrField(v, "name"),
            if p.Obj? then Some(ProfileData(StrField(p, "bio"), ArrField(p, "skills"), ArrField(p, "portfolio"),
                                            NumField(p, "xp"), NumField(p, "level"), NumField(p, "streak"),
                                            StrField(p, "title"), StrField(p, "location")))
            else None)
  }

  // ---------------------------------------------------------------------
  // Completion

  /** `profile?.profile` */
  function Data(p: Option<Profile>): Option<ProfileData> {
    if p.Some? then p.value.profile else None
  }

  /** `!!s` for an optional string. */
  predicate Filled(s: Option<string>) {
    s.Some? && s.value != ""
  }

  /** `(xs?.length ?? 0) > 0` */
  predicate NonEmpty(xs: Option<seq<Value>>) {
    xs.Some? && |xs.value| > 0
  }

  function CountTrue(xs: seq<bool>): (n: nat)
    ensures n <= |xs|
  {
    if xs == [] then 0 else (if xs[0] then 1 else 0) + CountTrue(xs[1..])
  }

  /** The four conditions completion counts: name, bio, some skill, some portfolio item. */
  function CompletionItems(p: Profile): seq<bool> {
    var d := p.profile.GetOr(NoProfileData);
    [Filled(p.name), Filled(d.bio), NonEmpty(d.skills), NonEmpty(d.portfolio)]
  }

  /** `Math.round(count / 4 * 100)` when there is a profile, 0 otherwise. */
  function Completion(p: Option<Profile>): int {
    if p.None? then 0 else RoundPercent(CountTrue(CompletionItems(p.value)), 4)
  }

  /** Completion is 25 per condition met: one of 0, 25, 50, 75, 100, and 0 without a profile. */
  lemma CompletionQuarters(p: Option<Profile>)
    ensures p.Some? ==> Completion(p) == 25 * CountTrue(CompletionItems(p.value))
    ensures Completion(p) in {0, 25, 50, 75, 100}
    ensures p.None? ==> Completion(p) == 0
  {
    if p.Some? {
      var n := CountTrue(CompletionItems(p.value));
      assert 200 * n + 4 == 8 * (25 * n) + 4;
      assert n <= 4;
    }
  }

  datatype Task = Task(text: string, done: bool)

  function CompletionTasks(p: Option<Profile>): (ts: seq<Task>)
    ensures |ts| == 4
  {
    var d := Data(p).GetOr(NoProfileData);
    [Task("Add Name", p.Some? && Filled(p.value.name)),
     Task("Add Bio", Filled(d.bio)),
     Task("Add Skills", NonEmpty(d.skills)),
     Task("Add Portfolio", NonEmpty(d.portfolio))]
  }

  function DoneCount(ts: seq<Task>): (n: nat)
    ensures n <= |ts|
  {
    if ts == [] then 0 else (if ts[0].done then 1 else 0) + DoneCount(ts[1..])
  }

  lemma DoneCountOfFour(ts: seq<Task>)
    requires |ts| == 4
    ensures DoneCount(ts) == (if ts[0].done then 1 else 0) + (if ts[1].done then 1 else 0)
                             + (if ts[2].done then 1 else 0) + (if ts[3].done then 1 else 0)
  {
    var a := ts[1..];
    var b := a[1..];
    var c := b[1..];
    assert c[1..] == [];
    assert a[0] == ts[1] && b[0] == ts[2] && c[0] == ts[3];
  }

  lemma CountTrueOfFour(xs: seq<bool>)
    requires |xs| == 4
    ensures CountTrue(xs) == (if xs[0] then 1 else 0) + (if xs[1] then 1 else 0) + (if xs[2] then 1 else 0) + (if xs[3] then 1 else 0)
  {
    var a := xs[1..];
    var b := a[1..];
    var c := b[1..];
    assert c[1..] == [];
    assert a[0] == xs[1] && b[0] == xs[2] && c[0] == xs[3];
  }

  /** The completion figure and the task list agree: 25 per task done. */
  lemma CompletionMatchesTasks(p: Option<Profile>)
    ensures Completion(p) == 25 * DoneCount(CompletionTasks(p))
  {
    CompletionQuarters(p);
    var ts := CompletionTasks(p);
    DoneCountOfFour(ts);
    if p.Some? {
      CountTrueOfFour(CompletionItems(p.value));
    }
  }

  // ---------------------------------------------------------------------
  // The gamification figures

  /** `profile?.profile?.xp ?? 0` */
  function ShownXp(p: Option<Profile>): int {
    if Data(p).Some? then Data(p).value.xp.GetOr(0) else 0
  }

  /** `profile?.profile?.level ?? 1` */
  function ShownLevel(p: Option<Profile>): int {
    if Data(p).Some? then Data(p).value.level.GetOr(1) else 1
  }

  /** `profile?.profile?.streak ?? 0` */
  function ShownStreak(p: Option<Profile>): int {
    if Data(p).Some? then Data(p).value.streak.GetOr(0) else 0
  }

  /** `500 - (xp % 500)`, the remainder taking the dividend's sign. */
  function XpToNext(xp: int): (r: int)
    ensures xp >= 0 ==> 1 <= r <= 500 && JsRem(xp, 500) + r == 500
    ensures xp < 0 ==> 500 <= r < 1000
  {
    500 - JsRem(xp, 500)
  }

  /** A negative xp shows more than a whole level to go. */
  lemma XpToNextNegative()
    ensures XpToNext(-1) == 501
  {
  }

  /** `Math.min(streak * 10, 100)` */
  function StreakBar(streak: int): (r: int)
    ensures r <= 100
    ensures r == 100 <==> streak >= 10
    ensures streak >= 0 ==> r >= 0
    ensures streak < 10 ==> r == 10 * streak
  {
    if streak * 10 < 100 then streak * 10 else 100
  }

  // ---------------------------------------------------------------------
  // Saving

  /** `profile?.profile?.key || default` for a number. */
  function NumOr(v: Option<int>, default: int): int {
    if v.Some? && v.value != 0 then v.value else default
  }

  function DataXp(p: Option<Profile>): Option<int> {
    if Data(p).Some? then Data(p).value.xp else None
  }

  function DataLevel(p: Option<Profile>): Option<int> {
    if Data(p).Some? then Data(p).value.level else None
  }

  function DataStreak(p: Option<Profile>): Option<int> {
    if Data(p).Some? then Data(p).value.streak else None
  }

  /** The body of the save request. */
  function SavePayload(p: Option<Profile>, e: EditData): (v: Value)
    ensures v.Obj? && v.fields.Keys == {"name", "title", "location", "bio", "xp", "level", "streak"}
  {
    Obj(map["name" := Str(e.name), "title" := Str(e.title), "location" := Str(e.location), "bio" := Str(e.bio),
            "xp" := Num(NumOr(DataXp(p), 0) + 25),
            "level" := Num(NumOr(DataLevel(p), 1)),
            "streak" := Num(NumOr(DataStreak(p), 0))])
  }

  /**
   * The save sends the shown xp plus 25 and the shown streak; it sends the
   * shown level except for a stored level of 0, which the page shows as 0
   * (`??`) and sends as 1 (`||`).
   */
  lemma SavePayloadFigures(p: Option<Profile>, e: EditData)
    ensures SavePayload(p, e).fields["xp"] == Num(ShownXp(p) + 25)
    ensures SavePayload(p, e).fields["streak"] == Num(ShownStreak(p))
    ensures DataLevel(p) != Some(0) ==> SavePayload(p, e).fields["level"] == Num(ShownLevel(p))
    ensures DataLevel(p) == Some(0) ==> ShownLevel(p) == 0 && SavePayload(p, e).fields["level"] == Num(1)
  {
  }

  /**
   * What the `me` route keeps of the save: the name, and the bio, xp, level
   * and streak; the title and the location the dialog sent are dropped.
   */
  lemma SaveReachesServer(p: Option<Profile>, e: EditData)
    ensures MeRoute.UserFields(SavePayload(p, e)) == map["name" := Str(e.name)]
    ensures MeRoute.ProfileFields(SavePayload(p, e)) == map[
      "bio" := Str(e.bio), "xp" := SavePayload(p, e).fields["xp"],
      "level" := SavePayload(p, e).fields["level"], "streak" := SavePayload(p, e).fields["streak"]]
    ensures "title" in SavePayload(p, e).fields && "location" in SavePayload(p, e).fields
  {
    SaveProfileFields(SavePayload(p, e), e.bio);
  }

  /** The `me` route's profile filter on a body shaped like the save request's. */
  lemma SaveProfileFields(body: Value, bio: string)
    requires body.Obj? && body.fields.Keys == {"name", "title", "location", "bio", "xp", "level", "streak"}
    requires body.fields["bio"] == Str(bio)
    requires body.fields["xp"].Num? && body.fields["level"].Num? && body.fields["streak"].Num?
    ensures MeRoute.ProfileFields(body) == map[
      "bio" := Str(bio), "xp" := body.fields["xp"], "level" := body.fields["level"], "streak" := body.fields["streak"]]
  {
    var m := MeRoute.ProfileFields(body);
    var expected := map["bio" := Str(bio), "xp" := body.fields["xp"], "level" := body.fields["level"], "streak" := body.fields["streak"]];
    assert MeRoute.KeepsProfileKey(body, "bio") && MeRoute.KeepsProfileKey(body, "xp");
    assert MeRoute.KeepsProfileKey(body, "level") && MeRoute.KeepsProfileKey(body, "streak");
    assert "skills" !in body.fields && "portfolio" !in body.fields && "endorsements" !in body.fields;
    assert m.Keys == expected.Keys;
  }

  /** The local record after a successful save: the new name and bio, 25 more xp; everything else as before. */
  function SavedLocally(prev: Option<Profile>, e: EditData): Option<Profile> {
    if prev.None? then None
    else
      var d := prev.value.profile.GetOr(NoProfileData);
      Some(prev.value.(name := Some(e.name), profile := Some(d.(bio := Some(e.bio), xp := Some(NumOr(d.xp, 0) + 25)))))
  }

  /**
   * After a successful save the page shows 25 more xp, the same level and
   * streak, the new name and bio, and the old title and location.
   */
  lemma SavedLocallyEffect(prev: Option<Profile>, e: EditData)
    requires prev.Some?
    ensures var p := SavedLocally(prev, e);
            && p.Some? && p.value.name == Some(e.name) && Data(p).Some? && Data(p).value.bio == Some(e.bio)
            && ShownXp(p) == ShownXp(prev) + 25
            && ShownLevel(p) == ShownLevel(prev) && ShownStreak(p) == ShownStreak(prev)
            && Data(p).value.title == (if Data(prev).Some? then Data(prev).value.title else None)
            && Data(p).value.location == (if Data(prev).Some? then Data(prev).value.location else None)
  {
  }

  /** As written, the title and location edited in the dialog are lost: the server drops them and the page keeps the old ones. */
  lemma SaveDropsTitleAndLocation(prev: Option<Profile>, e: EditData)
    requires prev.Some? && Data(prev).Some? && Data(prev).value.title != Some(e.title)
    ensures "title" !in MeRoute.ProfileFields(SavePayload(prev, e))
    ensures Data(SavedLocally(prev, e)).value.title != Some(e.title)
  {
    SaveReachesServer(prev, e);
  }

  /** The profile columns the `me` route would keep if it accepted the dialog's title and location as strings. */
  function ProfileFieldsIntended(body: Value): (m: map<string, Value>)
    requires !body.Null? && !body.Undefined?
    ensures forall k :: k in m <==> MeRoute.KeepsProfileKey(body, k) || ((k == "title" || k == "location") && TypeOf(MeRoute.Prop(body, k)) == "string")
    ensures forall k :: k in m ==> m[k] == MeRoute.Prop(body, k)
  {
    var fields := MeRoute.ProfileFields(body);
    var withTitle := if TypeOf(MeRoute.Prop(body, "title")) == "string" then fields["title" := MeRoute.Prop(body, "title")] else fields;
    if TypeOf(MeRoute.Prop(body, "location")) == "string" then withTitle["location" := MeRoute.Prop(body, "location")] else withTitle
  }

  /** The local record after a save that also keeps the dialog's title and location. */
  function SavedLocallyIntended(prev: Option<Profile>, e: EditData): Option<Profile> {
    if prev.None? then None
    else
      var d := prev.value.profile.GetOr(NoProfileData);
      Some(prev.value.(name := Some(e.name),
                       profile := Some(d.(bio := Some(e.bio), xp := Some(NumOr(d.xp, 0) + 25),
                                          title := Some(e.title), location := Some(e.location)))))
  }

  /** With the intended filter and local update, every field of the dialog reaches the server and the page. */
  lemma SaveKeepsEditsIntended(prev: Option<Profile>, e: EditData)
    requires prev.Some?
    ensures var fields := ProfileFieldsIntended(SavePayload(prev, e));
            && "title" in fields && fields["title"] == Str(e.title)
            && "location" in fields && fields["location"] == Str(e.location)
            && "bio" in fields && fields["bio"] == Str(e.bio)
    ensures var p := SavedLocallyIntended(prev, e);
            && Data(p).Some? && Data(p).value.title == Some(e.title) && Data(p).value.location == Some(e.location)
            && Data(p).value.bio == Some(e.bio) && p.value.name == Some(e.name)
            && ShownXp(p) == ShownXp(prev) + 25 && ShownLevel(p) == ShownLevel(prev) && ShownStreak(p) == ShownStreak(prev)
  {
    var body := SavePayload(prev, e);
    assert MeRoute.KeepsProfileKey(body, "bio");
  }

  // ---------------------------------------------------------------------
  // What the `me` route answers

  /** A fetched record whose profile has no xp, level, streak, title or location shows the defaults. */
  lemma DecodeWithoutGamification(v: Value, e: EditData)
    requires var pv := OptGet(v, "profile");
             !pv.Obj? || (forall k :: k in {"xp", "level", "streak", "title", "location"} ==> k !in pv.fields)
    ensures var p := Some(Decode(v));
            && ShownXp(p) == 0 && ShownLevel(p) == 1 && ShownStreak(p) == 0
            && (Data(p).Some? ==> Data(p).value.title.None? && Data(p).value.location.None?)
            && SavePayload(p, e).fields["xp"] == Num(25)
  {
    var pv := OptGet(v, "profile");
    if pv.Obj? {
      assert "xp" !in pv.fields && "level" !in pv.fields && "streak" !in pv.fields;
      assert "title" !in pv.fields && "location" !in pv.fields;
    }
  }

  /** The `me` route's profile record names none of the gamification columns, nor title and location. */
  lemma ProfileValueOmits(t: Db.Tables, p: Db.ProfileRow, k: string)
    requires k == "xp" || k == "level" || k == "streak" || k == "title" || k == "location"
    ensures k !in MeRoute.ProfileValue(t, p).fields
  {
  }

  lemma MeAnswerHasNoGamification(t: Db.Tables, u: Db.UserRow)
    ensures var pv := OptGet(MeRoute.UserValue(t, u), "profile");
            !pv.Obj? || (forall k :: k in {"xp", "level", "streak", "title", "location"} ==> k !in pv.fields)
  {
    var v := MeRoute.UserValue(t, u);
    var pv := v.fields["profile"];
    assert OptGet(v, "profile") == pv;
    if u.id in t.profiles {
      forall k | k in {"xp", "level", "streak", "title", "location"}
        ensures k !in pv.fields
      {
        ProfileValueOmits(t, t.profiles[u.id], k);
      }
    }
  }

  /**
   * The `me` route's answer has no xp, level, streak, title or location, so
   * the page always shows xp 0, level 1 and streak 0, and every save sends
   * xp 25: xp never accumulates across reloads.
   */
  lemma MeAnswerShowsDefaults(t: Db.Tables, u: Db.UserRow, e: EditData)
    ensures var p := Some(Decode(MeRoute.UserValue(t, u)));
            && ShownXp(p) == 0 && ShownLevel(p) == 1 && ShownStreak(p) == 0
            && (Data(p).Some? ==> Data(p).value.title.None? && Data(p).value.location.None?)
            && SavePayload(p, e).fields["xp"] == Num(25)
  {
    MeAnswerHasNoGamification(t, u);
    DecodeWithoutGamification(MeRoute.UserValue(t, u), e);
  }

  // ---------------------------------------------------------------------
  // The page state

  datatype EditField = NameField | TitleField | LocationField | BioField

  /** How the save request ended: an ok answer with a JSON body, or anything else (a network error, a non-ok status, a body that is not JSON). */
  datatype SaveResult = Saved | Failed

  const LoadErrorToast := "Error loading profile"
  const SavedToast := "Profile updated!"
  const SaveErrorToast := "Error saving changes"

  class Page {
    var profile: Option<Profile>
    var loading: bool
    var saving: bool
    var editOpen: bool
    var editData: EditData
    var showConfetti: bool
    var xpAnimation: XpAnimation
    /** The titles of the toasts shown, oldest first. */
    var toasts: seq<string>

    constructor ()
      ensures profile.None? && loading && !saving && !editOpen && editData == EditData("", "", "", "")
      ensures !showConfetti && xpAnimation == XpAnimation(0, false) && toasts == []
    {
      profile := None;
      loading := true;
      saving := false;
      editOpen := false;
      editData := EditData("", "", "", "");
      showConfetti := false;
      xpAnimation := XpAnimation(0, false);
      toasts := [];
    }

    /**
     * The fetch effect's result: the answer is stored, and the edit dialog
     * is filled from it. A null answer is stored too, after which reading
     * its name throws and the error toast is shown.
     */
    method ProfileFetched(data: Value)
      modifies this
      ensures !loading && saving == old(saving) && editOpen == old(editOpen)
      ensures showConfetti == old(showConfetti) && xpAnimation == old(xpAnimation)
      ensures data.Null? || data.Undefined? ==>
        profile.None? && editData == old(editData) && toasts == old(toasts) + [LoadErrorToast]
      ensures !(data.Null? || data.Undefined?) ==>
        var p := Decode(data);
        var d := p.profile.GetOr(NoProfileData);
        && profile == Some(p) && toasts == old(toasts)
        && editData == EditData(p.name.GetOr(""), d.title.GetOr(""), d.location.GetOr(""), d.bio.GetOr(""))
    {
      if data.Null? || data.Undefined? {
        profile := None;
        toasts := toasts + [LoadErrorToast];
      } else {
        var p := Decode(data);
        profile := Some(p);
        var d := p.profile.GetOr(NoProfileData);
        editData := EditData(p.name.GetOr(""), d.title.GetOr(""), d.location.GetOr(""), d.bio.GetOr(""));
      }
      loading := false;
    }

    /** The fetch failed (network error or a body that is not JSON). */
    method FetchFailed()
      modifies this
      ensures !loading && toasts == old(toasts) + [LoadErrorToast]
      ensures profile == old(profile) && editData == old(editData) && saving == old(saving)
      ensures editOpen == old(editOpen) && showConfetti == old(showConfetti) && xpAnimation == old(xpAnimation)
    {
      toasts := toasts + [LoadErrorToast];
      loading := false;
    }

    method OpenEdit()
      modifies this
      ensures editOpen
      ensures profile == old(profile) && loading == old(loading) && saving == old(saving) && editData == old(editData)
      ensures showConfetti == old(showConfetti) && xpAnimation == old(xpAnimation) && toasts == old(toasts)
    {
      editOpen := true;
    }

    /** One keystroke in the dialog: only the edited field changes. */
    method HandleEditChange(field: EditField, value: string)
      modifies this
      ensures editData == (match field
                           case NameField => old(editData).(name := value)
                           case TitleField => old(editData).(title := value)
                           case LocationField => old(editData).(location := value)
                           case BioField => old(editData).(bio := value))
      ensures profile == old(profile) && loading == old(loading) && saving == old(saving) && editOpen == old(editOpen)
      ensures showConfetti == old(showConfetti) && xpAnimation == old(xpAnimation) && toasts == old(toasts)
    {
      match field
      case NameField => editData := editData.(name := value);
      case TitleField => editData := editData.(title := value);
      case LocationField => editData := editData.(location := value);
      case BioField => editData := editData.(bio := value);
    }

    /**
     * The save button: the request body it sends, then, on success, the
     * local update, the xp animation for 25, the confetti, the success
     * toast and the dialog closed; on failure only the error toast. Saving
     * is over either way.
     */
    method HandleSaveChanges(result: SaveResult) returns (body: Value)
      modifies this
      ensures body == SavePayload(old(profile), old(editData))
      ensures !saving && loading == old(loading) && editData == old(editData)
      ensures result == Saved ==>
        && profile == SavedLocally(old(profile), old(editData))
        && xpAnimation == XpAnimation(25, true) && showConfetti && !editOpen
        && toasts == old(toasts) + [SavedToast]
      ensures result == Failed ==>
        && profile == old(profile) && xpAnimation == old(xpAnimation) && showConfetti == old(showConfetti)
        && editOpen == old(editOpen) && toasts == old(toasts) + [SaveErrorToast]
    {
      saving := true;
      body := SavePayload(profile, editData);
      if result == Saved {
        profile := SavedLocally(profile, editData);
        xpAnimation := XpAnimation(25, true);
        showConfetti := true;
        toasts := toasts + [SavedToast];
        editOpen := false;
      } else {
        toasts := toasts + [SaveErrorToast];
      }
      saving := false;
    }

    /** The xp animation's timer. */
    method XpAnimationEnds()
      modifies this
      ensures xpAnimation == XpAnimation(0, false)
      ensures profile == old(profile) && loading == old(loading) && saving == old(saving) && editOpen == old(editOpen)
      ensures editData == old(editData) && showConfetti == old(showConfetti) && toasts == old(toasts)
    {
      xpAnimation := XpAnimation(0, false);
    }

    /** The confetti's timer. */
    method ConfettiEnds()
      modifies this
      ensures !showConfetti
      ensures profile == old(profile) && loading == old(loading) && saving == old(saving) && editOpen == old(editOpen)
      ensures editData == old(editData) && xpAnimation == old(xpAnimation) && toasts == old(toasts)
    {
      showConfetti := false;
    }
  }

  /** Two successful saves without a reload add 50 xp on the page, while each sends the xp it shows plus 25. */
  method SaveTwice(page: Page) returns (first: Value, second: Value)
    requires page.profile.Some?
    modifies page
    ensures ShownXp(page.profile) == ShownXp(old(page.profile)) + 50
    ensures first.Obj? && "xp" in first.fields && first.fields["xp"] == Num(ShownXp(old(page.profile)) + 25)
    ensures second.Obj? && "xp" in second.fields && second.fields["xp"] == Num(ShownXp(old(page.profile)) + 50)
  {
    ghost var p0 := page.profile;
    first := page.HandleSaveChanges(Saved);
    SavePayloadFigures(p0, page.editData);
    SavedLocallyEffect(p0, page.editData);
    ghost var p1 := page.profile;
    second := page.HandleSaveChanges(Saved);
    SavePayloadFigures(p1, page.editData);
    SavedLocallyEffect(p1, page.editData);
  }
}
