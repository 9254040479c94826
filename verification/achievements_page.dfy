/** The achievements page: the unlocked/total summary and one card per entry. */
module AchievementsPage {
  import opened Wrappers
  import opened GamificationProvider
  import AchievementCard
  import Js

  /** `achievements.filter(a => a.unlocked).length` */
  function UnlockedCount(xs: seq<Achievement>): (n: nat)
    ensures n <= |xs|
    ensures n == |xs| <==> forall i :: 0 <= i < |xs| ==> xs[i].unlocked
    ensures n == 0 <==> forall i :: 0 <= i < |xs| ==> !xs[i].unlocked
    decreases |xs|
  {
    if xs == [] then 0
    else UnlockedCount(xs[..|xs| - 1]) + (if xs[|xs| - 1].unlocked then 1 else 0)
  }

  /**
   * The "unlocked/total" summary text: the one slash in it stands right after
   * the printed unlocked count.
   */
  function Summary(xs: seq<Achievement>): (s: string)
    ensures |Js.IntToString(UnlockedCount(xs))| < |s|
    ensures forall i :: 0 <= i < |s| ==> (s[i] == '/' <==> i == |Js.IntToString(UnlockedCount(xs))|)
  {
    Js.IntToString(UnlockedCount(xs)) + "/" + Js.IntToString(|xs|)
  }

  /** In two texts joined by a slash that neither contains, the one slash stands right after the first. */
  lemma SlashAt(a: string, b: string)
    requires '/' !in a && '/' !in b
    ensures forall i :: 0 <= i < |a + "/" + b| ==> ((a + "/" + b)[i] == '/' <==> i == |a|)
  {
  }

  /** Two texts joined by a slash that neither contains split back into the same two. */
  lemma SlashSplit(a: string, b: string, c: string, d: string)
    requires '/' !in a && '/' !in b && '/' !in c && '/' !in d
    requires a + "/" + b == c + "/" + d
    ensures a == c && b == d
  {
    var s := a + "/" + b;
    SlashAt(a, b);
    SlashAt(c, d);
    assert s[|a|] == '/';
    assert |a| == |c|;
    assert a == s[..|a|] == c;
    assert b == s[|a| + 1..] == d;
  }

  /** The summary text determines both figures: the unlocked count and the total. */
  lemma SummaryReadsBack(xs: seq<Achievement>, ys: seq<Achievement>)
    requires Summary(xs) == Summary(ys)
    ensures UnlockedCount(xs) == UnlockedCount(ys) && |xs| == |ys|
  {
    var a, b := Js.IntToString(UnlockedCount(xs)), Js.IntToString(|xs|);
    var c, d := Js.IntToString(UnlockedCount(ys)), Js.IntToString(|ys|);
    SlashSplit(a, b, c, d);
    Js.IntToStringInjective(UnlockedCount(xs), UnlockedCount(ys));
    Js.IntToStringInjective(|xs|, |ys|);
  }

  /** Replacing one entry changes the count by the difference of the two entries' flags. */
  lemma {:induction false} UnlockedCountUpdate(xs: seq<Achievement>, k: int, a: Achievement)
    requires 0 <= k < |xs|
    ensures UnlockedCount(xs[k := a]) + (if xs[k].unlocked then 1 else 0) == UnlockedCount(xs) + (if a.unlocked then 1 else 0)
    decreases |xs|
  {
    var ys := xs[k := a];
    var init := xs[..|xs| - 1];
    assert UnlockedCount(xs) == UnlockedCount(init) + (if xs[|xs| - 1].unlocked then 1 else 0);
    if k == |xs| - 1 {
      assert ys[..|ys| - 1] == init;
      assert UnlockedCount(ys) == UnlockedCount(init) + (if a.unlocked then 1 else 0);
    } else {
      assert ys[..|ys| - 1] == init[k := a];
      assert ys[|ys| - 1] == xs[|xs| - 1];
      assert UnlockedCount(ys) == UnlockedCount(init[k := a]) + (if xs[|xs| - 1].unlocked then 1 else 0);
      UnlockedCountUpdate(init, k, a);
    }
  }

  /** Unlocking a locked entry raises the summary's count by exactly one; the total stays. */
  lemma UnlockRaisesCount(s: State, id: string, k: int)
    requires Valid(s) && 0 <= k < |s.achievements| && s.achievements[k].id == id && !s.achievements[k].unlocked
    ensures UnlockedCount(UnlockStep(s, id).achievements) == UnlockedCount(s.achievements) + 1
    ensures |UnlockStep(s, id).achievements| == |s.achievements|
  {
    UnlockLocked(s, id, k);
    UnlockedCountUpdate(s.achievements, k, s.achievements[k].(unlocked := true));
  }

  datatype Icon = OwnIcon | LockIcon

  datatype EntryCard = EntryCard(icon: Icon, title: string, badge: Option<string>, description: string, section: AchievementCard.Section)

  function RenderEntry(a: Achievement): (c: EntryCard)
    ensures c.icon == LockIcon <==> !a.unlocked
    ensures c.badge.Some? <==> a.unlocked
    ensures c.badge.Some? ==> c.badge.value == "+" + Js.IntToString(a.points)
    ensures c.section.Shown? <==> HasMax(a)
  {
    EntryCard(if a.unlocked then OwnIcon else LockIcon,
              a.title,
              if a.unlocked then Some("+" + Js.IntToString(a.points)) else None,
              a.description,
              AchievementCard.ProgressSection(a))
  }

  function RenderAll(xs: seq<Achievement>): (cs: seq<EntryCard>)
    ensures |cs| == |xs| && forall i :: 0 <= i < |xs| ==> cs[i] == RenderEntry(xs[i])
  {
    seq(|xs|, i requires 0 <= i < |xs| => RenderEntry(xs[i]))
  }

  /** The number of cards carrying a points badge. */
  function BadgeCount(cs: seq<EntryCard>): (n: nat)
    ensures n <= |cs|
    decreases |cs|
  {
    if cs == [] then 0 else BadgeCount(cs[..|cs| - 1]) + (if cs[|cs| - 1].badge.Some? then 1 else 0)
  }

  /**
   * One card per entry, in order: the card shows the entry's title and
   * description, a lock instead of its icon exactly while it is locked, the
   * "+points" badge exactly once it is unlocked, and the progress section
   * exactly when it has a non-zero maximum; so the badged cards are as many
   * as the summary's unlocked count.
   */
  lemma {:induction false} RenderAllMeaning(xs: seq<Achievement>)
    ensures |RenderAll(xs)| == |xs|
    ensures forall i :: 0 <= i < |xs| ==>
      && RenderAll(xs)[i].title == xs[i].title
      && RenderAll(xs)[i].description == xs[i].description
      && (RenderAll(xs)[i].icon == LockIcon <==> !xs[i].unlocked)
      && (RenderAll(xs)[i].badge == if xs[i].unlocked then Some("+" + Js.IntToString(xs[i].points)) else None)
      && (RenderAll(xs)[i].section.Shown? <==> HasMax(xs[i]))
    ensures BadgeCount(RenderAll(xs)) == UnlockedCount(xs)
    decreases |xs|
  {
    if xs != [] {
      var init := xs[..|xs| - 1];
      assert RenderAll(xs)[..|xs| - 1] == RenderAll(init);
      RenderAllMeaning(init);
    }
  }
}
