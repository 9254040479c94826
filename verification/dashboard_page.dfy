/**
 * The dashboard page: a welcome banner that hides itself, the level card
 * with its own next-level label and progress bar, and the demo button that
 * awards points.
 */
module DashboardPage {
  import opened Wrappers
  import opened GamificationProvider
  import PointsDisplay
  import Js

  /** The step to the next level, chosen by the current level's number. */
  function StepByLevel(l: Level): int {
    if l.level == 1 then 100
    else if l.level == 2 then 200
    else if l.level == 3 then 400
    else 800
  }

  /** The right-hand label of the level card. */
  function NextLevelLabel(l: Level): string {
    if l.level < 5 then Js.IntToString(l.pointsRequired + StepByLevel(l)) + " next level" else "Max level"
  }

  /** The level card's progress bar. */
  function Progress(points: int, l: Level): PointsDisplay.Bar {
    if l.level < 5 then PointsDisplay.Ratio(points - l.pointsRequired, StepByLevel(l)) else PointsDisplay.Full
  }

  /**
   * The dashboard's step, keyed on the current level, and the header's step,
   * keyed on the next level, agree for every level: both widgets show the
   * same next-level points and the same bar.
   */
  lemma DashboardAgreesWithHeader(points: int, l: Level)
    ensures l.level < 5 ==> l.pointsRequired + StepByLevel(l) == PointsDisplay.NextLevelPoints(l)
    ensures Progress(points, l) == PointsDisplay.Progress(points, l)
  {
  }

  /** For a table row below the top, the label names the next row's threshold. */
  lemma LabelNamesNextThreshold(k: int)
    requires 0 <= k < |Levels| - 1
    ensures NextLevelLabel(Levels[k]) == Js.IntToString(Levels[k + 1].pointsRequired) + " next level"
  {
    PointsDisplay.NextLevelPointsIsNextThreshold(k);
    DashboardAgreesWithHeader(0, Levels[k]);
  }

  /** The reason the "Find New Contests" button passes to `addPoints`. */
  const FindContestsReason := "Exploring new opportunities"

  /** `handleFindContests`: award 10 points. */
  method HandleFindContests(g: Provider)
    requires g.Inv()
    modifies g
    ensures g.Current() == AddPointsStep(old(g.Current()), 10, Some(FindContestsReason)) && g.Inv()
    ensures g.points == old(g.points) + 10
    ensures g.toasts[..|old(g.toasts)| + 1] == old(g.toasts) + [PointsEarned(10, FindContestsReason)]
  {
    g.AddPoints(10, Some(FindContestsReason));
  }

  /** The page component's own state. */
  class Page {
    var showWelcome: bool

    constructor ()
      ensures showWelcome
    {
      showWelcome := true;
    }

    /** The five-second timer set on mount hides the banner. */
    method WelcomeTimerFires()
      modifies this
      ensures !showWelcome
    {
      showWelcome := false;
    }
  }
}
