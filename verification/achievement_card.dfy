/**
 * The dashboard's achievement card: the first unlocked entry as "Recently
 * Unlocked" and the first locked entry that tracks progress as "Next
 * Achievement", with its progress section.
 */
module AchievementCard {
  import opened Wrappers
  import opened GamificationProvider
  import Js

  /**
   * What `{a.maxProgress && (<section/>)}` renders. An absent maximum renders
   * nothing; a maximum of 0 renders the number itself as text, as React does
   * with a falsy number; otherwise the section shows "progress / max" and a
   * rounded percentage ("NaN%" when the progress is absent).
   */
  datatype Section =
    | Hidden
    | ZeroText
    | Shown(text: string, percent: string, bar: Option<(int, int)>)

  /** `Math.round(progress / maxProgress * 100)` followed by `%`. */
  function PercentText(progress: Option<int>, max: int): string
    requires max != 0
  {
    if progress.Some? then Js.IntToString(Js.RoundPercent(progress.value, max)) + "%" else "NaN%"
  }

  /** The progress section of an entry; the achievements page repeats the same markup. */
  function ProgressSection(a: Achievement): (s: Section)
    ensures s.Shown? <==> HasMax(a)
    ensures s.ZeroText? <==> a.maxProgress == Some(0)
    ensures s.Shown? ==> s.bar.Some? == a.progress.Some?
  {
    match a.maxProgress
    case None => Hidden
    case Some(m) =>
      if m == 0 then ZeroText
      else
        var shownProgress := if a.progress.Some? then Js.IntToString(a.progress.value) else "";
        Shown(shownProgress + " / " + Js.IntToString(m),
              PercentText(a.progress, m),
              if a.progress.Some? then Some((a.progress.value, m)) else None)
  }

  /** A positive factor keeps the sign of a product. */
  lemma SignOfProduct(a: int, b: int)
    requires b > 0
    ensures a * b <= 0 ==> a <= 0
    ensures a * b > 0 ==> a > 0
  {
  }

  /** A progress between 0 and a positive maximum rounds to a percentage between 0 and 100, and to 100 exactly at the maximum. */
  lemma PercentInRange(progress: int, max: int)
    requires 0 <= progress <= max && max > 0
    ensures 0 <= Js.RoundPercent(progress, max) <= 100
    ensures progress == max ==> Js.RoundPercent(progress, max) == 100
    ensures progress == 0 ==> Js.RoundPercent(progress, max) == 0
  {
    var r := Js.RoundPercent(progress, max);
    assert (2 * r + 1) * max > 0;
    SignOfProduct(2 * r + 1, max);
    assert (2 * r - 1 - 200) * max <= 0;
    SignOfProduct(2 * r - 201, max);
    if progress == max {
      assert (2 * r + 1 - 200) * max > 0;
      SignOfProduct(2 * r - 199, max);
    }
    if progress == 0 {
      assert (2 * r - 1) * max <= 0;
      SignOfProduct(2 * r - 1, max);
    }
  }

  /** The index of the first entry satisfying `a.unlocked`, as `find` scans. */
  function FirstUnlocked(xs: seq<Achievement>): (r: Option<nat>)
    ensures r.Some? ==> r.value < |xs| && xs[r.value].unlocked
    ensures r.Some? ==> forall j :: 0 <= j < r.value ==> !xs[j].unlocked
    ensures r.None? ==> forall j :: 0 <= j < |xs| ==> !xs[j].unlocked
  {
    if xs == [] then None
    else if xs[0].unlocked then Some(0)
    else match FirstUnlocked(xs[1..])
      case None => None
      case Some(i) => Some(i + 1)
  }

  /** `!a.unlocked && a.progress !== undefined` */
  predicate IsNextCandidate(a: Achievement) {
    !a.unlocked && a.progress.Some?
  }

  /** The index of the first locked entry that records a progress. */
  function FirstNextCandidate(xs: seq<Achievement>): (r: Option<nat>)
    ensures r.Some? ==> r.value < |xs| && IsNextCandidate(xs[r.value])
    ensures r.Some? ==> forall j :: 0 <= j < r.value ==> !IsNextCandidate(xs[j])
    ensures r.None? ==> forall j :: 0 <= j < |xs| ==> !IsNextCandidate(xs[j])
  {
    if xs == [] then None
    else if IsNextCandidate(xs[0]) then Some(0)
    else match FirstNextCandidate(xs[1..])
      case None => None
      case Some(i) => Some(i + 1)
  }

  datatype Entry = Entry(title: string, description: string)

  datatype Card = Card(recent: Option<Entry>, next: Option<Entry>, nextSection: Section)

  /**
   * The card: the "recent" section names the first unlocked entry (none when
   * nothing is unlocked), the "next" section names the first locked entry
   * with a progress and shows that entry's progress section (hidden when
   * there is none).
   */
  function Render(xs: seq<Achievement>): (c: Card)
    ensures c.recent.None? <==> forall j :: 0 <= j < |xs| ==> !xs[j].unlocked
    ensures c.recent.Some? ==> exists i :: 0 <= i < |xs| && xs[i].unlocked && (forall j :: 0 <= j < i ==> !xs[j].unlocked)
                                          && c.recent.value == Entry(xs[i].title, xs[i].description)
    ensures c.next.None? <==> forall j :: 0 <= j < |xs| ==> !IsNextCandidate(xs[j])
    ensures c.next.Some? ==> exists i :: 0 <= i < |xs| && IsNextCandidate(xs[i]) && (forall j :: 0 <= j < i ==> !IsNextCandidate(xs[j]))
                                        && c.next.value == Entry(xs[i].title, xs[i].description)
                                        && c.nextSection == ProgressSection(xs[i])
    ensures c.next.None? ==> c.nextSection == Hidden
  {
    var recent := FirstUnlocked(xs);
    var next := FirstNextCandidate(xs);
    Card(
      if recent.Some? then Some(Entry(xs[recent.value].title, xs[recent.value].description)) else None,
      if next.Some? then Some(Entry(xs[next.value].title, xs[next.value].description)) else None,
      if next.Some? then ProgressSection(xs[next.value]) else Hidden)
  }

  /** The two sections never show the same entry: one is unlocked, the other is not. */
  lemma RecentAndNextDiffer(xs: seq<Achievement>)
    requires FirstUnlocked(xs).Some? && FirstNextCandidate(xs).Some?
    ensures FirstUnlocked(xs).value != FirstNextCandidate(xs).value
  {
  }

  /** The next section's percentage is always a number: the chosen entry has a progress. */
  lemma NextPercentDefined(xs: seq<Achievement>)
    requires FirstNextCandidate(xs).Some? && HasMax(xs[FirstNextCandidate(xs).value])
    ensures Render(xs).nextSection.Shown? && Render(xs).nextSection.bar.Some?
  {
  }

  /** On the initial list nothing is recent and the next achievement is "Profile Perfectionist" at 0 / 5, 0%. */
  lemma InitialCard()
    ensures Render(InitialAchievements) == Card(None, Some(Entry("Profile Perfectionist", "Complete your profile with all details")),
                                                Shown("0 / 5", "0%", Some((0, 5))))
  {
    assert FirstNextCandidate(InitialAchievements) == Some(0);
    assert Js.RoundPercent(0, 5) == 0;
  }
}
