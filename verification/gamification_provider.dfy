/**
 * The gamification engine: a running points total, the level derived from it
 * through a five-row threshold table, a list of achievements that can be
 * unlocked once, and the notifications (toasts) the engine emits.
 *
 * The pure part (the table, the level search, the list transitions and the
 * abstract `State` they act on) comes first; the class `Provider` holds the
 * same state in mutable fields and its methods are proved against the pure
 * transitions.
 *
 * React's state updaters are modelled as running in call order: an updater
 * queued from inside another updater sees that updater's result.
 */
module GamificationProvider {
  import opened Wrappers
  import Js

  datatype Level = Level(level: int, title: string, pointsRequired: int)

  /** The level table, lowest level first. */
  const Levels: seq<Level> := [
    Level(1, "Novice", 0),
    Level(2, "Apprentice", 100),
    Level(3, "Specialist", 300),
    Level(4, "Expert", 700),
    Level(5, "Master", 1500)
  ]

  /** The table has levels 1..5 in order, starting at 0 points, with strictly increasing thresholds. */
  lemma LevelTableShape()
    ensures |Levels| == 5
    ensures forall i :: 0 <= i < |Levels| ==> Levels[i].level == i + 1
    ensures Levels[0].pointsRequired == 0
    ensures forall i, j :: 0 <= i < j < |Levels| ==> Levels[i].pointsRequired < Levels[j].pointsRequired
  {
  }

  /** The top-down search of `getCurrentLevel`, started at index `i`. */
  function LevelSearch(p: int, i: int): (l: Level)
    requires -1 <= i < |Levels|
    decreases i + 1
  {
    if i < 0 then Levels[0]
    else if p >= Levels[i].pointsRequired then Levels[i]
    else LevelSearch(p, i - 1)
  }

  lemma {:induction false} LevelSearchIsHighest(p: int, i: int)
    requires -1 <= i < |Levels|
    ensures LevelSearch(p, i) in Levels
    ensures LevelSearch(p, i).pointsRequired <= p || LevelSearch(p, i) == Levels[0]
    ensures forall k :: 0 <= k <= i && Levels[k].pointsRequired <= p ==> Levels[k].level <= LevelSearch(p, i).level
    ensures i >= 0 && LevelSearch(p, i) != Levels[0] ==> exists k :: 0 <= k <= i && LevelSearch(p, i) == Levels[k]
    decreases i + 1
  {
    if i >= 0 && p < Levels[i].pointsRequired {
      LevelSearchIsHighest(p, i - 1);
      forall k | 0 <= k <= i && Levels[k].pointsRequired <= p
        ensures Levels[k].level <= LevelSearch(p, i).level
      {
        assert k < i;
      }
    }
  }

  /**
   * `getCurrentLevel(points)`: the highest level whose threshold is at most
   * `p`, and the first level when no threshold is (which cannot happen for
   * p >= 0, since the first threshold is 0).
   */
  function CurrentLevel(p: int): (l: Level)
    ensures l in Levels
    ensures l.pointsRequired <= p || l == Levels[0]
    ensures forall k :: 0 <= k < |Levels| && Levels[k].pointsRequired <= p ==> Levels[k].level <= l.level
  {
    LevelSearchIsHighest(p, |Levels| - 1);
    LevelSearch(p, |Levels| - 1)
  }

  /** The level number as a closed formula over the thresholds. */
  lemma CurrentLevelTable(p: int)
    ensures CurrentLevel(p).level == (if p >= 1500 then 5 else if p >= 700 then 4 else if p >= 300 then 3 else if p >= 100 then 2 else 1)
    ensures CurrentLevel(p) == Levels[CurrentLevel(p).level - 1]
  {
  }

  /** Every p below 100, negative ones included, is level 1; in particular 0 is level 1. */
  lemma CurrentLevelBelowFirstThreshold(p: int)
    requires p < 100
    ensures CurrentLevel(p) == Levels[0] && CurrentLevel(p).level == 1
  {
    CurrentLevelTable(p);
  }

  /** The level never goes down when points go up. */
  lemma CurrentLevelMonotone(p: int, q: int)
    requires p <= q
    ensures CurrentLevel(p).level <= CurrentLevel(q).level
  {
    CurrentLevelTable(p);
    CurrentLevelTable(q);
  }

  /** The descending loop with early return of `getCurrentLevel`. */
  method GetCurrentLevel(p: int) returns (l: Level)
    ensures l == CurrentLevel(p)
    ensures l in Levels && (l.pointsRequired <= p || l == Levels[0])
  {
    var i := |Levels| - 1;
    while i >= 0
      invariant -1 <= i < |Levels|
      invariant LevelSearch(p, i) == LevelSearch(p, |Levels| - 1)
    {
      if p >= Levels[i].pointsRequired {
        return Levels[i];
      }
      i := i - 1;
    }
    return Levels[0];
  }

  datatype Achievement = Achievement(
    id: string,
    title: string,
    description: string,
    unlocked: bool,
    points: int,
    progress: Option<int>,
    maxProgress: Option<int>)

  /** `achievement.maxProgress` is truthy: present and non-zero. */
  predicate HasMax(a: Achievement) {
    a.maxProgress.Some? && a.maxProgress.value != 0
  }

  const InitialAchievements: seq<Achievement> := [
    Achievement("profile_complete", "Profile Perfectionist", "Complete your profile with all details", false, 50, Some(0), Some(5)),
    Achievement("first_submission", "First Steps", "Submit your first contest entry", false, 30, None, None),
    Achievement("contest_winner", "Winner's Circle", "Win your first contest", false, 100, None, None),
    Achievement("submission_streak", "Consistency Champion", "Submit entries for 5 days in a row", false, 75, Some(0), Some(5))
  ]

  predicate UniqueIds(xs: seq<Achievement>) {
    forall i, j :: 0 <= i < j < |xs| ==> xs[i].id != xs[j].id
  }

  /** Every recorded progress of an entry with a maximum is at most that maximum. */
  predicate ProgressBounded(xs: seq<Achievement>) {
    forall i :: 0 <= i < |xs| && HasMax(xs[i]) && xs[i].progress.Some? ==> xs[i].progress.value <= xs[i].maxProgress.value
  }

  datatype Toast =
    | PointsEarned(amount: int, description: string)
    | AchievementUnlocked(achievementTitle: string)
    | LevelUp(description: string)

  /** The toast title of a points award, `+${amount} points earned!`. */
  function PointsToastTitle(amount: int): string {
    "+" + Js.IntToString(amount) + " points earned!"
  }

  /** The provider's whole state, as the class `Provider` holds it. */
  datatype State = State(
    points: int,
    level: Level,
    achievements: seq<Achievement>,
    showLevelUpAnimation: bool,
    toasts: seq<Toast>)

  ghost predicate Valid(s: State) {
    && s.level == CurrentLevel(s.points)
    && UniqueIds(s.achievements)
    && ProgressBounded(s.achievements)
  }

  function Initial(): (s: State)
    ensures Valid(s) && s.points == 0 && s.level.level == 1 && !s.showLevelUpAnimation
  {
    State(0, CurrentLevel(0), InitialAchievements, false, [])
  }

  /** The body of `addPoints` before React re-renders: the total moves and, for positive amounts only, a toast. */
  function Accrue(s: State, amount: int, reason: Option<string>): (r: State)
    ensures r.points == s.points + amount
    ensures r.toasts == s.toasts + (if amount > 0 then [PointsEarned(amount, ReasonText(reason))] else [])
    ensures r.level == s.level && r.achievements == s.achievements && r.showLevelUpAnimation == s.showLevelUpAnimation
  {
    s.(points := s.points + amount,
       toasts := s.toasts + if amount > 0 then [PointsEarned(amount, ReasonText(reason))] else [])
  }

  /**
   * `reason || "Keep up the good work!"`: JavaScript's `||` keeps a truthy
   * reason and falls back to the default for an absent (undefined) or empty one.
   */
  function ReasonText(reason: Option<string>): (t: string)
    ensures reason.Some? && Js.Truthy(Js.Str(reason.value)) ==> t == reason.value
    ensures !Js.Truthy(if reason.Some? then Js.Str(reason.value) else Js.Undefined) ==> t == "Keep up the good work!"
    ensures t != ""
  {
    if reason.Some? && reason.value != "" then reason.value else "Keep up the good work!"
  }

  /**
   * The level-up effect that runs after the points change: a strictly higher
   * level raises the flag and shows a toast; otherwise the level is reassigned
   * silently, so it may also fall.
   */
  function LevelEffect(s: State): (r: State)
    ensures r.level == CurrentLevel(s.points)
    ensures r.showLevelUpAnimation == (s.showLevelUpAnimation || CurrentLevel(s.points).level > s.level.level)
    ensures CurrentLevel(s.points).level > s.level.level ==> r.toasts == s.toasts + [LevelUp("Congratulations! You've reached " + CurrentLevel(s.points).title + " level!")]
    ensures CurrentLevel(s.points).level <= s.level.level ==> r.toasts == s.toasts
    ensures r.points == s.points && r.achievements == s.achievements
  {
    var newLevel := CurrentLevel(s.points);
    if newLevel.level > s.level.level then
      s.(level := newLevel, showLevelUpAnimation := true,
         toasts := s.toasts + [LevelUp("Congratulations! You've reached " + newLevel.title + " level!")])
    else
      s.(level := newLevel)
  }

  /** When the stored level already matches the points, the effect changes nothing. */
  lemma LevelEffectIdle(s: State)
    requires s.level == CurrentLevel(s.points)
    ensures LevelEffect(s) == s
  {
  }

  /** `addPoints(amount, reason)` followed by the level-up effect. */
  function AddPointsStep(s: State, amount: int, reason: Option<string>): State {
    LevelEffect(Accrue(s, amount, reason))
  }

  /** addPoints moves the total by exactly `amount` (any sign) and keeps the state valid. */
  lemma AddPointsExact(s: State, amount: int, reason: Option<string>)
    requires Valid(s)
    ensures AddPointsStep(s, amount, reason).points == s.points + amount
    ensures Valid(AddPointsStep(s, amount, reason))
    ensures AddPointsStep(s, amount, reason).showLevelUpAnimation
            <==> (s.showLevelUpAnimation || CurrentLevel(s.points + amount).level > s.level.level)
    ensures amount <= 0 ==> AddPointsStep(s, amount, reason).toasts == s.toasts
  {
    if amount <= 0 {
      CurrentLevelMonotone(s.points + amount, s.points);
    }
  }

  // ---------------------------------------------------------------------
  // unlockAchievement

  /** The entry an unlock of `id` produces from `a`. */
  function UnlockEntry(a: Achievement, id: string): Achievement {
    if a.id == id && !a.unlocked then a.(unlocked := true) else a
  }

  predicate Unlocks(a: Achievement, id: string) {
    a.id == id && !a.unlocked
  }

  function UnlockedList(xs: seq<Achievement>, id: string): (r: seq<Achievement>)
    ensures |r| == |xs|
    ensures forall i :: 0 <= i < |xs| ==> r[i] == UnlockEntry(xs[i], id)
  {
    seq(|xs|, i requires 0 <= i < |xs| => UnlockEntry(xs[i], id))
  }

  /**
   * The list after an unlock: every entry carrying `id` ends unlocked, every
   * other entry keeps its flag, and nothing but the flag changes.
   */
  lemma UnlockedListMeaning(xs: seq<Achievement>, id: string)
    ensures |UnlockedList(xs, id)| == |xs|
    ensures forall i :: 0 <= i < |xs| ==> (UnlockedList(xs, id)[i].unlocked <==> xs[i].unlocked || xs[i].id == id)
    ensures forall i :: 0 <= i < |xs| ==> UnlockedList(xs, id)[i].(unlocked := xs[i].unlocked) == xs[i]
  {
  }

  /** The points awarded by an unlock: those of every locked entry carrying `id`. */
  function UnlockAward(xs: seq<Achievement>, id: string): int
    decreases |xs|
  {
    if xs == [] then 0
    else UnlockAward(xs[..|xs| - 1], id) + (if Unlocks(xs[|xs| - 1], id) then xs[|xs| - 1].points else 0)
  }

  /** The toasts an unlock emits, per unlocked entry: the points toast (if positive), then the unlock toast. */
  function UnlockToasts(xs: seq<Achievement>, id: string): seq<Toast>
    decreases |xs|
  {
    if xs == [] then []
    else UnlockToasts(xs[..|xs| - 1], id) + EntryToasts(xs[|xs| - 1], id)
  }

  function EntryToasts(a: Achievement, id: string): seq<Toast> {
    if Unlocks(a, id) then
      (if a.points > 0 then [PointsEarned(a.points, "Achievement unlocked: " + a.title)] else [])
      + [AchievementUnlocked(a.title)]
    else []
  }

  /** One more entry of the list, as the unlock updater's loop sees it. */
  lemma UnlockPrefix(xs: seq<Achievement>, i: int, id: string)
    requires 0 <= i < |xs|
    ensures UnlockedList(xs[..i + 1], id) == UnlockedList(xs[..i], id) + [UnlockEntry(xs[i], id)]
    ensures UnlockAward(xs[..i + 1], id) == UnlockAward(xs[..i], id) + (if Unlocks(xs[i], id) then xs[i].points else 0)
    ensures UnlockToasts(xs[..i + 1], id) == UnlockToasts(xs[..i], id) + EntryToasts(xs[i], id)
  {
    assert xs[..i + 1][..i] == xs[..i];
  }

  /** The points and toasts of the unlock updater after the entries `xs`. */
  function UnlockedSoFar(s: State, xs: seq<Achievement>, id: string): State {
    s.(points := s.points + UnlockAward(xs, id), toasts := s.toasts + UnlockToasts(xs, id))
  }

  lemma UnlockedSoFarStep(s: State, xs: seq<Achievement>, i: int, id: string)
    requires 0 <= i < |xs|
    ensures UnlockedList(xs[..i + 1], id) == UnlockedList(xs[..i], id) + [UnlockEntry(xs[i], id)]
    ensures var t := UnlockedSoFar(s, xs[..i], id);
            UnlockedSoFar(s, xs[..i + 1], id)
            == t.(points := t.points + (if Unlocks(xs[i], id) then xs[i].points else 0), toasts := t.toasts + EntryToasts(xs[i], id))
  {
    UnlockPrefix(xs, i, id);
  }

  /** The state after the unlock updater, before the level-up effect. */
  function ApplyUnlock(s: State, id: string): State {
    s.(achievements := UnlockedList(s.achievements, id),
       points := s.points + UnlockAward(s.achievements, id),
       toasts := s.toasts + UnlockToasts(s.achievements, id))
  }

  function UnlockStep(s: State, id: string): State {
    LevelEffect(ApplyUnlock(s, id))
  }

  /** With no locked entry carrying `id`, the unlock awards nothing and emits nothing. */
  lemma {:induction false} UnlockAwardNone(xs: seq<Achievement>, id: string)
    requires forall i :: 0 <= i < |xs| ==> !Unlocks(xs[i], id)
    ensures UnlockAward(xs, id) == 0 && UnlockToasts(xs, id) == []
    decreases |xs|
  {
    if xs != [] {
      UnlockAwardNone(xs[..|xs| - 1], id);
    }
  }

  /** With unique ids, the award is exactly the points of the one entry carrying `id`, if it was locked. */
  lemma {:induction false} UnlockAwardUnique(xs: seq<Achievement>, id: string, k: int)
    requires UniqueIds(xs) && 0 <= k < |xs| && xs[k].id == id
    ensures UnlockAward(xs, id) == (if xs[k].unlocked then 0 else xs[k].points)
    ensures UnlockToasts(xs, id) == EntryToasts(xs[k], id)
    decreases |xs|
  {
    var init := xs[..|xs| - 1];
    if k == |xs| - 1 {
      UnlockAwardNone(init, id);
    } else {
      assert xs[|xs| - 1].id != id;
      UnlockAwardUnique(init, id, k);
    }
  }

  /** The unlock transition keeps the state valid. */
  lemma UnlockPreservesValid(s: State, id: string)
    requires Valid(s)
    ensures Valid(UnlockStep(s, id))
  {
    var xs := s.achievements;
    var ys := UnlockedList(xs, id);
    assert forall i :: 0 <= i < |xs| ==> ys[i].id == xs[i].id;
  }

  /**
   * Unlocking a locked entry marks it unlocked and adds exactly its points;
   * every other entry is untouched.
   */
  lemma UnlockLocked(s: State, id: string, k: int)
    requires Valid(s) && 0 <= k < |s.achievements| && s.achievements[k].id == id && !s.achievements[k].unlocked
    ensures UnlockStep(s, id).points == s.points + s.achievements[k].points
    ensures UnlockStep(s, id).achievements == s.achievements[k := s.achievements[k].(unlocked := true)]
  {
    UnlockAwardUnique(s.achievements, id, k);
    var ys := UnlockedList(s.achievements, id);
    forall i | 0 <= i < |ys| ensures ys[i] == s.achievements[k := s.achievements[k].(unlocked := true)][i] {
      if i != k {
        assert s.achievements[i].id != id;
      }
    }
  }

  /** Unlocking an already-unlocked or unknown id changes nothing at all. */
  lemma UnlockNoop(s: State, id: string)
    requires Valid(s)
    requires forall i :: 0 <= i < |s.achievements| && s.achievements[i].id == id ==> s.achievements[i].unlocked
    ensures UnlockStep(s, id) == s
  {
    UnlockAwardNone(s.achievements, id);
    assert UnlockedList(s.achievements, id) == s.achievements;
    LevelEffectIdle(s);
  }

  /** Two unlocks of the same id in a row award the points at most once: the second is a no-op. */
  lemma UnlockTwice(s: State, id: string)
    requires Valid(s)
    ensures UnlockStep(UnlockStep(s, id), id) == UnlockStep(s, id)
    ensures UnlockStep(UnlockStep(s, id), id).points == s.points + UnlockAward(s.achievements, id)
  {
    var t := UnlockStep(s, id);
    UnlockPreservesValid(s, id);
    UnlockNoop(t, id);
  }

  // ---------------------------------------------------------------------
  // updateAchievementProgress

  /** `Math.min(progress, achievement.maxProgress || progress)` */
  function ClampedProgress(a: Achievement, progress: int): (r: int)
    ensures HasMax(a) ==> r == if progress <= a.maxProgress.value then progress else a.maxProgress.value
    ensures !HasMax(a) ==> r == progress
  {
    var cap := if HasMax(a) then a.maxProgress.value else progress;
    if progress <= cap then progress else cap
  }

  /** The update reaches the maximum and queues an unlock. */
  predicate Completes(a: Achievement, id: string, progress: int) {
    a.id == id && !a.unlocked && HasMax(a) && ClampedProgress(a, progress) >= a.maxProgress.value
  }

  function ProgressEntry(a: Achievement, id: string, progress: int): Achievement {
    if a.id == id && !a.unlocked then
      if Completes(a, id, progress) then a.(progress := Some(ClampedProgress(a, progress)), unlocked := true)
      else a.(progress := Some(ClampedProgress(a, progress)))
    else a
  }

  function ProgressList(xs: seq<Achievement>, id: string, progress: int): (r: seq<Achievement>)
    ensures |r| == |xs|
    ensures forall i :: 0 <= i < |xs| ==> r[i] == ProgressEntry(xs[i], id, progress)
  {
    seq(|xs|, i requires 0 <= i < |xs| => ProgressEntry(xs[i], id, progress))
  }

  /**
   * The list after a progress update: an entry with another id, or one
   * already unlocked, is kept as it was; a locked entry carrying `id` gets
   * the clamped progress, is unlocked exactly when that reaches a non-zero
   * maximum, and keeps everything else.
   */
  lemma ProgressListMeaning(xs: seq<Achievement>, id: string, progress: int)
    ensures |ProgressList(xs, id, progress)| == |xs|
    ensures forall i :: 0 <= i < |xs| && (xs[i].id != id || xs[i].unlocked) ==> ProgressList(xs, id, progress)[i] == xs[i]
    ensures forall i :: 0 <= i < |xs| && xs[i].id == id && !xs[i].unlocked ==>
      && ProgressList(xs, id, progress)[i].progress == Some(ClampedProgress(xs[i], progress))
      && (ProgressList(xs, id, progress)[i].unlocked
          <==> HasMax(xs[i]) && ClampedProgress(xs[i], progress) >= xs[i].maxProgress.value)
      && ProgressList(xs, id, progress)[i].(progress := xs[i].progress, unlocked := xs[i].unlocked) == xs[i]
  {
  }

  lemma ProgressPrefix(xs: seq<Achievement>, i: int, id: string, progress: int)
    requires 0 <= i < |xs|
    ensures ProgressList(xs[..i + 1], id, progress) == ProgressList(xs[..i], id, progress) + [ProgressEntry(xs[i], id, progress)]
    ensures Completions(xs[..i + 1], id, progress) == Completions(xs[..i], id, progress) + (if Completes(xs[i], id, progress) then 1 else 0)
  {
    assert xs[..i + 1][..i] == xs[..i];
  }

  /** The number of nested `unlockAchievement(id)` calls the outer updater queues. */
  function Completions(xs: seq<Achievement>, id: string, progress: int): nat
    decreases |xs|
  {
    if xs == [] then 0
    else Completions(xs[..|xs| - 1], id, progress) + (if Completes(xs[|xs| - 1], id, progress) then 1 else 0)
  }

  /** `n` queued unlock updaters, applied in order to the outer updater's result. */
  function ApplyUnlocks(s: State, id: string, n: nat): State
    decreases n
  {
    if n == 0 then s else ApplyUnlocks(ApplyUnlock(s, id), id, n - 1)
  }

  /**
   * `updateAchievementProgress(id, progress)` as written: the outer updater
   * records the clamped progress (and `unlocked: true` on reaching the
   * maximum), then the unlock updaters it queued run on that result, then the
   * level-up effect.
   */
  function ProgressStep(s: State, id: string, progress: int): State {
    var mapped := s.(achievements := ProgressList(s.achievements, id, progress));
    LevelEffect(ApplyUnlocks(mapped, id, Completions(s.achievements, id, progress)))
  }

  lemma {:induction false} CompletionsUnique(xs: seq<Achievement>, id: string, progress: int)
    requires UniqueIds(xs)
    ensures Completions(xs, id, progress) <= 1
    ensures Completions(xs, id, progress) == 1 ==> exists k :: 0 <= k < |xs| && Completes(xs[k], id, progress)
    decreases |xs|
  {
    if xs != [] {
      var init := xs[..|xs| - 1];
      CompletionsUnique(init, id, progress);
      if Completes(xs[|xs| - 1], id, progress) {
        CompletionsNone(init, id, progress);
      }
    }
  }

  lemma {:induction false} CompletionsNone(xs: seq<Achievement>, id: string, progress: int)
    requires forall i :: 0 <= i < |xs| ==> xs[i].id != id
    ensures Completions(xs, id, progress) == 0
    decreases |xs|
  {
    if xs != [] {
      CompletionsNone(xs[..|xs| - 1], id, progress);
    }
  }

  /** The progress update keeps every id and preserves both list invariants. */
  lemma ProgressListValid(xs: seq<Achievement>, id: string, progress: int)
    requires UniqueIds(xs) && ProgressBounded(xs)
    ensures UniqueIds(ProgressList(xs, id, progress)) && ProgressBounded(ProgressList(xs, id, progress))
    ensures forall i :: 0 <= i < |xs| ==> ProgressList(xs, id, progress)[i].id == xs[i].id
  {
  }

  /** After the outer updater, no locked entry carries `id` if one completed. */
  lemma NothingLeftToUnlock(xs: seq<Achievement>, id: string, progress: int, k: int)
    requires UniqueIds(xs) && 0 <= k < |xs| && Completes(xs[k], id, progress)
    ensures forall i :: 0 <= i < |xs| ==> !Unlocks(ProgressList(xs, id, progress)[i], id)
  {
    var ys := ProgressList(xs, id, progress);
    forall i | 0 <= i < |xs| ensures !Unlocks(ys[i], id) {
      if i != k {
        assert xs[i].id != xs[k].id;
      }
    }
  }

  /** The as-written update changes nothing but the entry list, and awards no points under unique ids. */
  lemma ProgressStepEffect(s: State, id: string, progress: int)
    requires Valid(s)
    ensures ProgressStep(s, id, progress) == s.(achievements := ProgressList(s.achievements, id, progress))
    ensures Valid(ProgressStep(s, id, progress))
  {
    var xs := s.achievements;
    var ys := ProgressList(xs, id, progress);
    var mapped := s.(achievements := ys);
    ProgressListValid(xs, id, progress);
    CompletionsUnique(xs, id, progress);
    if Completions(xs, id, progress) == 1 {
      var k :| 0 <= k < |xs| && Completes(xs[k], id, progress);
      NothingLeftToUnlock(xs, id, progress, k);
      UnlockAwardNone(ys, id);
      assert UnlockedList(ys, id) == ys;
      assert ApplyUnlock(mapped, id) == mapped;
      assert ApplyUnlocks(mapped, id, 1) == ApplyUnlocks(ApplyUnlock(mapped, id), id, 0);
    }
    LevelEffectIdle(mapped);
  }

  /** On an unlocked or unknown id the progress update is a no-op. */
  lemma ProgressNoop(s: State, id: string, progress: int)
    requires Valid(s)
    requires forall i :: 0 <= i < |s.achievements| && s.achievements[i].id == id ==> s.achievements[i].unlocked
    ensures ProgressStep(s, id, progress) == s
  {
    ProgressStepEffect(s, id, progress);
    assert ProgressList(s.achievements, id, progress) == s.achievements;
  }

  /**
   * On a locked entry the update stores min(progress, maxProgress) (no lower
   * clamp; the raw progress without a maximum); reaching the maximum leaves it
   * unlocked at exactly the maximum, and no points are awarded: the nested
   * unlock runs after the entry was already marked unlocked.
   */
  lemma ProgressLocked(s: State, id: string, progress: int, k: int)
    requires Valid(s) && 0 <= k < |s.achievements| && s.achievements[k].id == id && !s.achievements[k].unlocked
    ensures |ProgressStep(s, id, progress).achievements| == |s.achievements|
    ensures var a := s.achievements[k]; var b := ProgressStep(s, id, progress).achievements[k];
      && b.progress == Some(if HasMax(a) && progress > a.maxProgress.value then a.maxProgress.value else progress)
      && (b.unlocked <==> HasMax(a) && progress >= a.maxProgress.value)
      && (b.unlocked ==> b.progress == a.maxProgress)
    ensures ProgressStep(s, id, progress).points == s.points
    ensures forall i :: 0 <= i < |s.achievements| && i != k ==> ProgressStep(s, id, progress).achievements[i] == s.achievements[i]
  {
    ProgressStepEffect(s, id, progress);
    forall i | 0 <= i < |s.achievements| && i != k ensures ProgressStep(s, id, progress).achievements[i] == s.achievements[i] {
      assert s.achievements[i].id != s.achievements[k].id;
    }
  }

  /** The points of the entries the update completes. */
  function CompletionAward(xs: seq<Achievement>, id: string, progress: int): int
    decreases |xs|
  {
    if xs == [] then 0
    else CompletionAward(xs[..|xs| - 1], id, progress) + (if Completes(xs[|xs| - 1], id, progress) then xs[|xs| - 1].points else 0)
  }

  /** The unlock toasts of the entries the update completes. */
  function CompletionToasts(xs: seq<Achievement>, id: string, progress: int): seq<Toast>
    decreases |xs|
  {
    if xs == [] then []
    else CompletionToasts(xs[..|xs| - 1], id, progress)
         + (if Completes(xs[|xs| - 1], id, progress) then EntryToasts(xs[|xs| - 1], id) else [])
  }

  /**
   * `updateAchievementProgress` as evidently intended: reaching the maximum
   * unlocks the entry AND awards its points with the unlock toasts, as
   * `unlockAchievement` does.
   */
  function ProgressStepIntended(s: State, id: string, progress: int): State {
    LevelEffect(s.(achievements := ProgressList(s.achievements, id, progress),
                   points := s.points + CompletionAward(s.achievements, id, progress),
                   toasts := s.toasts + CompletionToasts(s.achievements, id, progress)))
  }

  lemma {:induction false} CompletionAwardUnique(xs: seq<Achievement>, id: string, progress: int, k: int)
    requires UniqueIds(xs) && 0 <= k < |xs| && xs[k].id == id
    ensures CompletionAward(xs, id, progress) == (if Completes(xs[k], id, progress) then xs[k].points else 0)
    decreases |xs|
  {
    var init := xs[..|xs| - 1];
    if k == |xs| - 1 {
      CompletionAwardNone(init, id, progress);
    } else {
      assert xs[|xs| - 1].id != id;
      CompletionAwardUnique(init, id, progress, k);
    }
  }

  lemma {:induction false} CompletionAwardNone(xs: seq<Achievement>, id: string, progress: int)
    requires forall i :: 0 <= i < |xs| ==> xs[i].id != id
    ensures CompletionAward(xs, id, progress) == 0
    decreases |xs|
  {
    if xs != [] {
      CompletionAwardNone(xs[..|xs| - 1], id, progress);
    }
  }

  /**
   * The intended update completes an entry exactly as an unlock would: the
   * entry ends unlocked at its maximum and its points are awarded once; short
   * of the maximum nothing is awarded.
   */
  lemma IntendedProgressAwards(s: State, id: string, progress: int, k: int)
    requires Valid(s) && 0 <= k < |s.achievements| && s.achievements[k].id == id && !s.achievements[k].unlocked
    ensures |ProgressStepIntended(s, id, progress).achievements| == |s.achievements|
    ensures Completes(s.achievements[k], id, progress) ==>
      && ProgressStepIntended(s, id, progress).points == s.points + s.achievements[k].points
      && ProgressStepIntended(s, id, progress).achievements[k].unlocked
      && ProgressStepIntended(s, id, progress).achievements[k].progress == s.achievements[k].maxProgress
    ensures !Completes(s.achievements[k], id, progress) ==> ProgressStepIntended(s, id, progress).points == s.points
  {
    CompletionAwardUnique(s.achievements, id, progress, k);
  }

  /**
   * The discrepancy on the initial state: completing "profile_complete"
   * (maximum 5, worth 50 points) unlocks it but awards 0 points as written,
   * and 50 as intended.
   */
  lemma ProgressCompletionAwardsNothing(s: State)
    requires s == Initial()
    ensures ProgressStep(s, "profile_complete", 5).points == 0
    ensures |ProgressStep(s, "profile_complete", 5).achievements| == 4
    ensures ProgressStep(s, "profile_complete", 5).achievements[0].unlocked
    ensures ProgressStepIntended(s, "profile_complete", 5).points == 50
  {
    assert Completes(s.achievements[0], "profile_complete", 5);
    ProgressLocked(s, "profile_complete", 5, 0);
    IntendedProgressAwards(s, "profile_complete", 5, 0);
  }

  // ---------------------------------------------------------------------
  // The provider component's state

  /** The mutable state held by `GamificationProvider`, with its operations. */
  class Provider {
    var points: int
    var level: Level
    var achievements: seq<Achievement>
    var showLevelUpAnimation: bool
    /** Every toast shown so far, oldest first. */
    var toasts: seq<Toast>

    function Current(): State
      reads this
    {
      State(points, level, achievements, showLevelUpAnimation, toasts)
    }

    ghost predicate Inv()
      reads this
    {
      Valid(Current())
    }

    constructor ()
      ensures Current() == Initial() && Inv()
    {
      var initialLevel := GetCurrentLevel(0);
      points := 0;
      level := initialLevel;
      achievements := InitialAchievements;
      showLevelUpAnimation := false;
      toasts := [];
    }

    /** `setPoints(prev => prev + amount)` and the points toast of `addPoints`. */
    method AccruePoints(amount: int, reason: Option<string>)
      modifies this
      ensures Current() == Accrue(old(Current()), amount, reason)
    {
      points := points + amount;
      if amount > 0 {
        toasts := toasts + [PointsEarned(amount, ReasonText(reason))];
      }
    }

    /** The effect that reruns when the points change. */
    method RunLevelEffect()
      modifies this
      ensures Current() == LevelEffect(old(Current()))
    {
      var newLevel := GetCurrentLevel(points);
      if newLevel.level > level.level {
        level := newLevel;
        showLevelUpAnimation := true;
        toasts := toasts + [LevelUp("Congratulations! You've reached " + newLevel.title + " level!")];
      } else {
        level := newLevel;
      }
    }

    method AddPoints(amount: int, reason: Option<string>)
      requires Inv()
      modifies this
      ensures Current() == AddPointsStep(old(Current()), amount, reason) && Inv()
      ensures points == old(points) + amount
    {
      AddPointsExact(Current(), amount, reason);
      AccruePoints(amount, reason);
      RunLevelEffect();
    }

    /** The updater `unlockAchievement` passes to `setAchievements`, mapping over the list. */
    method RunUnlockUpdater(id: string)
      modifies this
      ensures Current() == ApplyUnlock(old(Current()), id)
    {
      var prev := achievements;
      var next: seq<Achievement> := [];
      var i := 0;
      while i < |prev|
        invariant 0 <= i <= |prev|
        invariant Current() == UnlockedSoFar(old(Current()), prev[..i], id)
        invariant next == UnlockedList(prev[..i], id)
      {
        UnlockedSoFarStep(old(Current()), prev, i, id);
        var b := UnlockOne(prev[i], id);
        next := next + [b];
        i := i + 1;
      }
      assert prev[..|prev|] == prev;
      achievements := next;
    }

    /** The map callback on one entry: a locked entry with the id is unlocked and its points are added. */
    method UnlockOne(a: Achievement, id: string) returns (b: Achievement)
      modifies this
      ensures b == UnlockEntry(a, id)
      ensures Current() == old(Current()).(points := old(points) + (if Unlocks(a, id) then a.points else 0),
                                           toasts := old(toasts) + EntryToasts(a, id))
    {
      if a.id == id && !a.unlocked {
        AccruePoints(a.points, Some("Achievement unlocked: " + a.title));
        toasts := toasts + [AchievementUnlocked(a.title)];
        b := a.(unlocked := true);
      } else {
        b := a;
      }
    }

    method UnlockAchievement(id: string)
      requires Inv()
      modifies this
      ensures Current() == UnlockStep(old(Current()), id) && Inv()
    {
      UnlockPreservesValid(Current(), id);
      RunUnlockUpdater(id);
      RunLevelEffect();
    }

    /**
     * `updateAchievementProgress`: the outer updater maps over the list and
     * queues one `unlockAchievement(id)` per entry reaching its maximum; the
     * queued updaters then run on its result, then the level-up effect.
     */
    method UpdateAchievementProgress(id: string, progress: int)
      requires Inv()
      modifies this
      ensures Current() == ProgressStep(old(Current()), id, progress) && Inv()
    {
      ProgressStepEffect(Current(), id, progress);
      var queued := RunProgressUpdater(id, progress);
      RunQueuedUnlocks(id, queued);
      RunLevelEffect();
    }

    /** The `unlockAchievement(id)` updaters queued by the outer one, run in order. */
    method RunQueuedUnlocks(id: string, queued: nat)
      modifies this
      ensures Current() == ApplyUnlocks(old(Current()), id, queued)
    {
      var k := 0;
      while k < queued
        invariant 0 <= k <= queued
        invariant ApplyUnlocks(Current(), id, queued - k) == ApplyUnlocks(old(Current()), id, queued)
      {
        RunUnlockUpdater(id);
        k := k + 1;
      }
    }

    /** The outer updater of `updateAchievementProgress`: maps over the list, counting the unlocks it queues. */
    method RunProgressUpdater(id: string, progress: int) returns (queued: nat)
      modifies this
      ensures Current() == old(Current()).(achievements := ProgressList(old(achievements), id, progress))
      ensures queued == Completions(old(achievements), id, progress)
    {
      var prev := achievements;
      var next: seq<Achievement> := [];
      queued := 0;
      var i := 0;
      while i < |prev|
        invariant 0 <= i <= |prev|
        invariant Current() == old(Current())
        invariant next == ProgressList(prev[..i], id, progress)
        invariant queued == Completions(prev[..i], id, progress)
      {
        var a := prev[i];
        ProgressPrefix(prev, i, id, progress);
        if a.id == id && !a.unlocked {
          var cap := if HasMax(a) then a.maxProgress.value else progress;
          var newProgress := if progress <= cap then progress else cap;
          if HasMax(a) && newProgress >= a.maxProgress.value {
            queued := queued + 1;
            next := next + [a.(progress := Some(newProgress), unlocked := true)];
          } else {
            next := next + [a.(progress := Some(newProgress))];
          }
        } else {
          next := next + [a];
        }
        i := i + 1;
      }
      assert prev[..|prev|] == prev;
      achievements := next;
    }

    method SetShowLevelUpAnimation(show: bool)
      modifies this
      ensures Current() == old(Current()).(showLevelUpAnimation := show)
    {
      showLevelUpAnimation := show;
    }
  }
}
